/** The cooperative budget (src/coop.rs): a thread's count of operations left, saved and restored
    around nested polls, spent before an operation runs and given back when it does not complete. */
module Coop {
  import opened Prelude

  /** The count of operations a poll starts with. */
  const BUDGET: Word := 128
  /** What the budget cell holds while no task is being polled. */
  const UNBUDGETED: Word := TWO_64 - 1

  type Word = w: nat | w < TWO_64
  type Id = nat

  /** What the code of a poll does with the budget, in order. */
  datatype Act =
    /** `poll_budget` around `body`, which answers Ready or Pending: an IO operation, the poll of a
        `cooperative` future, `consume_budget`. */
    | Op(body: seq<Act>, ready: bool)
    /** An operation that cannot be undone: `exhausted`, then `spent_one` if it completed. */
    | Firm(completes: bool)
    /** A task's poll. */
    | Task(id: Id, body: seq<Act>)
    /** One poll by `block_on`, of the future it was given. */
    | BlockOn(body: seq<Act>)
    /** The poll of an `unconstrained` future. */
    | Unconstrained(body: seq<Act>)

  /** What was decided for one operation: under how many nested scopes, in which task, and whether it
      was let run. */
  datatype Ruling = Ruling(depth: nat, task: Option<Id>, may: bool)

  // ----- the thread's cells

  /** The thread's context: its budget and the task being polled. */
  datatype Cells = Cells(left: Word, task: Option<Id>)

  datatype Ran = Ran(cells: Cells, log: seq<Ruling>)

  /** `x - 1` on 64 bits, and whether it wrapped. */
  function OverflowingSub(x: Word): (r: (Word, bool))
    ensures r == if x == 0 then (UNBUDGETED, true) else (x - 1, false)
  {
    ((x + TWO_64 - 1) % TWO_64, x < 1)
  }

  /** One operation taken off the budget, or none if it is at zero, where it stays. */
  function TrySpend(c: Cells): (Cells, bool) {
    var (rest, spent) := OverflowingSub(c.left);
    (c.(left := if spent then 0 else rest), !spent)
  }

  function Refund(c: Cells): Cells {
    c.(left := SaturatingAdd(c.left, 1))
  }

  /** The acts run on the thread's cells. */
  function Run(acts: seq<Act>, c: Cells, depth: nat): Ran {
    if acts == [] then Ran(c, [])
    else
      var first := RunOne(acts[0], c, depth);
      var rest := Run(acts[1..], first.cells, depth);
      Ran(rest.cells, first.log + rest.log)
  }

  function RunOne(act: Act, c: Cells, depth: nat): Ran {
    match act
    case Op(body, ready) =>
      var (spent, may) := TrySpend(c);
      var ruling := Ruling(depth, c.task, may);
      if !may then Ran(spent, [ruling])
      else
        var inner := Run(body, spent, depth);
        Ran(if ready then inner.cells else Refund(inner.cells), [ruling] + inner.log)
    case Firm(completes) =>
      var ruling := Ruling(depth, c.task, c.left != 0);
      if c.left == 0 || !completes then Ran(c, [ruling])
      else Ran(c.(left := OverflowingSub(c.left).0), [ruling])
    case Task(id, body) =>
      Ran(c, Run(body, Cells(BUDGET, Some(id)), depth + 1).log)
    case BlockOn(body) =>
      var inner := Run(body, c.(left := BUDGET), depth + 1);
      Ran(inner.cells.(left := c.left), inner.log)
    case Unconstrained(body) =>
      var inner := Run(body, c.(left := UNBUDGETED), depth + 1);
      Ran(inner.cells.(left := c.left), inner.log)
  }

  // ----- the accounting

  /** One scope: its limit, the operations completed directly in it, those still open around this
      point, and the task and depth it is in. */
  datatype Scope = Scope(limit: nat, completed: nat, open: nat, task: Option<Id>, depth: nat)

  datatype Account = Account(completed: nat, log: seq<Ruling>)

  function Rule(s: Scope): Ruling {
    Ruling(s.depth, s.task, s.completed + s.open < s.limit)
  }

  /** The acts counted, with no counter to save: an operation is refused exactly when those completed
      in its scope and those still open around it reach the limit; a nested scope starts its own
      count, and ends without a trace in this one. */
  function Count(acts: seq<Act>, s: Scope): Account {
    if acts == [] then Account(s.completed, [])
    else
      var first := CountOne(acts[0], s);
      var rest := Count(acts[1..], s.(completed := first.completed));
      Account(rest.completed, first.log + rest.log)
  }

  function CountOne(act: Act, s: Scope): Account {
    match act
    case Op(body, ready) =>
      if !Rule(s).may then Account(s.completed, [Rule(s)])
      else
        var inner := Count(body, s.(open := s.open + 1));
        Account(inner.completed + if ready then 1 else 0, [Rule(s)] + inner.log)
    case Firm(completes) =>
      Account(s.completed + if Rule(s).may && completes then 1 else 0, [Rule(s)])
    case Task(id, body) =>
      Account(s.completed, Count(body, Scope(BUDGET, 0, 0, Some(id), s.depth + 1)).log)
    case BlockOn(body) =>
      Account(s.completed, Count(body, Scope(BUDGET, 0, 0, s.task, s.depth + 1)).log)
    case Unconstrained(body) =>
      Account(s.completed, Count(body, Scope(UNBUDGETED, 0, 0, s.task, s.depth + 1)).log)
  }

  /** The cells that stand for a scope. */
  function Left(s: Scope): Cells
    requires s.completed + s.open <= s.limit < TWO_64
  {
    Cells(s.limit - s.completed - s.open, s.task)
  }

  /** At every point of every nesting the budget is the limit less the operations completed and those
      still open, the task is the innermost one being polled, and the cells decide as the count does. */
  lemma {:induction false} RunCounts(acts: seq<Act>, s: Scope)
    requires s.completed + s.open <= s.limit < TWO_64
    ensures var a := Count(acts, s);
            && s.completed <= a.completed && a.completed + s.open <= s.limit
            && Run(acts, Left(s), s.depth) == Ran(Left(s.(completed := a.completed)), a.log)
    decreases acts, 0
  {
    if acts != [] {
      RunCountsOne(acts[0], s);
      RunCounts(acts[1..], s.(completed := CountOne(acts[0], s).completed));
    }
  }

  lemma {:induction false} RunCountsOne(act: Act, s: Scope)
    requires s.completed + s.open <= s.limit < TWO_64
    ensures var a := CountOne(act, s);
            && s.completed <= a.completed && a.completed + s.open <= s.limit
            && RunOne(act, Left(s), s.depth) == Ran(Left(s.(completed := a.completed)), a.log)
    decreases act
  {
    hide OverflowingSub;
    match act
    case Op(body, ready) =>
      if Rule(s).may {
        RunCounts(body, s.(open := s.open + 1));
      }
    case Firm(_) =>
    case Task(id, body) => RunCounts(body, Scope(BUDGET, 0, 0, Some(id), s.depth + 1));
    case BlockOn(body) => RunCounts(body, Scope(BUDGET, 0, 0, s.task, s.depth + 1));
    case Unconstrained(body) => RunCounts(body, Scope(UNBUDGETED, 0, 0, s.task, s.depth + 1));
  }

  // ----- what the accounting gives

  /** Operations asked for directly in the acts' own scope. */
  function Asked(acts: seq<Act>): nat {
    if acts == [] then 0 else AskedOne(acts[0]) + Asked(acts[1..])
  }

  function AskedOne(act: Act): nat {
    match act
    case Op(body, _) => 1 + Asked(body)
    case Firm(_) => 1
    case _ => 0
  }

  /** No operation of the scope itself is refused. */
  ghost predicate NeverRefused(log: seq<Ruling>, depth: nat) {
    forall k | 0 <= k < |log| :: log[k].depth >= depth && (log[k].depth == depth ==> log[k].may)
  }

  /** A poll that asks for no more operations than its limit has none refused, so one that is
      `unconstrained` never yields within 2^64 - 1 of them. */
  lemma {:induction false} WithinLimit(acts: seq<Act>, s: Scope)
    requires s.completed + s.open + Asked(acts) <= s.limit < TWO_64
    ensures NeverRefused(Count(acts, s).log, s.depth)
    ensures Count(acts, s).completed <= s.completed + Asked(acts)
    decreases acts, 0
  {
    if acts != [] {
      WithinLimitOne(acts[0], s);
      WithinLimit(acts[1..], s.(completed := CountOne(acts[0], s).completed));
    }
  }

  lemma {:induction false} WithinLimitOne(act: Act, s: Scope)
    requires s.completed + s.open + AskedOne(act) <= s.limit < TWO_64
    ensures NeverRefused(CountOne(act, s).log, s.depth)
    ensures CountOne(act, s).completed <= s.completed + AskedOne(act)
    decreases act
  {
    match act
    case Op(body, ready) => WithinLimit(body, s.(open := s.open + 1));
    case Firm(_) =>
    case Task(id, body) => Deeper(body, Scope(BUDGET, 0, 0, Some(id), s.depth + 1));
    case BlockOn(body) => Deeper(body, Scope(BUDGET, 0, 0, s.task, s.depth + 1));
    case Unconstrained(body) => Deeper(body, Scope(UNBUDGETED, 0, 0, s.task, s.depth + 1));
  }

  lemma {:induction false} Deeper(acts: seq<Act>, s: Scope)
    ensures forall k | 0 <= k < |Count(acts, s).log| :: Count(acts, s).log[k].depth >= s.depth
    decreases acts, 0
  {
    if acts != [] {
      DeeperOne(acts[0], s);
      Deeper(acts[1..], s.(completed := CountOne(acts[0], s).completed));
    }
  }

  lemma {:induction false} DeeperOne(act: Act, s: Scope)
    ensures forall k | 0 <= k < |CountOne(act, s).log| :: CountOne(act, s).log[k].depth >= s.depth
    decreases act
  {
    match act
    case Op(body, ready) => Deeper(body, s.(open := s.open + 1));
    case Firm(_) =>
    case Task(id, body) => Deeper(body, Scope(BUDGET, 0, 0, Some(id), s.depth + 1));
    case BlockOn(body) => Deeper(body, Scope(BUDGET, 0, 0, s.task, s.depth + 1));
    case Unconstrained(body) => Deeper(body, Scope(UNBUDGETED, 0, 0, s.task, s.depth + 1));
  }

  /** A poll of operations that are always ready completes those within the limit and has every later
      one refused. */
  lemma {:induction false} AlwaysReady(acts: seq<Act>, s: Scope)
    requires forall a | a in acts :: a == Op([], true) || a == Firm(true)
    requires s.open == 0 && s.completed <= s.limit
    ensures Count(acts, s).completed == Min(s.completed + |acts|, s.limit)
    ensures |Count(acts, s).log| == |acts|
    ensures forall k | 0 <= k < |acts| ::
              Count(acts, s).log[k] == Ruling(s.depth, s.task, s.completed + k < s.limit)
  {
    if acts != [] {
      var first := CountOne(acts[0], s);
      assert acts[0] in acts && Count([], s.(open := 1)) == Account(s.completed, []);
      assert first == Account(Min(s.completed + 1, s.limit), [Rule(s)]);
      assert forall a | a in acts[1..] :: a in acts;
      AlwaysReady(acts[1..], s.(completed := first.completed));
    }
  }

  // ----- the thread

  class Thread {
    var left: Word
    var task: Option<Id>
    /** What was decided, in order. */
    ghost var log: seq<Ruling>

    constructor ()
      ensures left == UNBUDGETED && task == None && log == []
    {
      left, task, log := UNBUDGETED, None, [];
    }

    function Now(): Cells
      reads this
    {
      Cells(left, task)
    }

    /** Starts the poll of a task, and answers what it replaced. */
    method EnterTask(id: Id) returns (entered: Cells)
      modifies this`left, this`task
      ensures entered == old(Now()) && Now() == Cells(BUDGET, Some(id))
    {
      entered := Cells(left, task);
      left, task := BUDGET, Some(id);
    }

    method LeaveTask(entered: Cells)
      modifies this`left, this`task
      ensures Now() == entered
    {
      left := entered.left;
      task := entered.task;
    }

    /** Starts a poll's budget, or with `UNBUDGETED` a call outside it. */
    method Enter(budget: Word) returns (previous: Word)
      modifies this`left
      ensures previous == old(left) && left == budget
    {
      previous := left;
      left := budget;
    }

    method Leave(previous: Word)
      modifies this`left
      ensures left == previous
    {
      left := previous;
    }

    method TakeOne() returns (may: bool)
      modifies this`left
      ensures (Now(), may) == TrySpend(old(Now()))
      ensures may == (old(left) > 0) && left == if may then old(left) - 1 else 0
    {
      var (rest, spent) := OverflowingSub(left);
      left := rest;
      if spent {
        left := 0;
      }
      may := !spent;
    }

    /** Undoes one spend on whatever the cell holds by then. */
    method GiveOne()
      modifies this`left
      ensures Now() == Refund(old(Now()))
    {
      left := SaturatingAdd(left, 1);
    }

    /** A poll's acts, done one after the other on the cells as each finds them. */
    method Poll(acts: seq<Act>, ghost depth: nat)
      modifies this
      ensures Ran(Now(), log) == Logged(old(log), Run(acts, old(Now()), depth))
      decreases acts, 0
    {
      var i := 0;
      while i < |acts|
        invariant 0 <= i <= |acts|
        invariant Logged(log, Run(acts[i..], Now(), depth)) == Logged(old(log), Run(acts, old(Now()), depth))
      {
        ghost var before, was := log, Now();
        PollOne(acts[i], depth);
        assert acts[i..][1..] == acts[i + 1..];
        LogsJoin(before, RunOne(acts[i], was, depth), Run(acts[i + 1..], Now(), depth));
        i := i + 1;
      }
    }

    method PollOne(act: Act, ghost depth: nat)
      modifies this
      ensures Ran(Now(), log) == Logged(old(log), RunOne(act, old(Now()), depth))
      decreases act
    {
      match act
      case Op(body, ready) =>
        var may := TakeOne();
        log := log + [Ruling(depth, task, may)];
        if may {
          Poll(body, depth);
          if !ready {
            GiveOne();
          }
        }
      case Firm(completes) =>
        log := log + [Ruling(depth, task, left != 0)];
        if left != 0 && completes {
          left := OverflowingSub(left).0;
        }
      case Task(id, body) =>
        var entered := EnterTask(id);
        Poll(body, depth + 1);
        LeaveTask(entered);
      case BlockOn(body) =>
        var previous := Enter(BUDGET);
        Poll(body, depth + 1);
        Leave(previous);
      case Unconstrained(body) =>
        var previous := Enter(UNBUDGETED);
        Poll(body, depth + 1);
        Leave(previous);
    }
  }

  /** A run's decisions added to those before it. */
  function Logged(before: seq<Ruling>, ran: Ran): Ran {
    Ran(ran.cells, before + ran.log)
  }

  lemma LogsJoin(before: seq<Ruling>, first: Ran, rest: Ran)
    ensures Logged(before, Ran(rest.cells, first.log + rest.log)) == Logged(before + first.log, rest)
  {
    assert before + (first.log + rest.log) == before + first.log + rest.log;
  }
}
