/** What holds in every state any run of a `JoinSet` can reach. */
module JoinSetRuns {
  import opened Prelude
  import opened JoinSet
  import opened JoinSetProofs

  ghost predicate Reaches(s: State, run: seq<Action>, r: State)
    decreases |run|
  {
    if run == [] then r == s
    else Enabled(s, run[0]) && Reaches(Apply(s, run[0]), run[1..], r)
  }

  ghost predicate Reachable(r: State) {
    exists run: seq<Action> :: Reaches(Init(), run, r)
  }

  lemma {:induction false} RunKeeps(s: State, run: seq<Action>, r: State)
    requires Inv(s) && Reaches(s, run, r)
    ensures Inv(r)
    decreases |run|
  {
    hide Inv, Apply, Enabled;
    if run != [] {
      StepKeeps(s, run[0]);
      RunKeeps(Apply(s, run[0]), run[1..], r);
    }
  }

  lemma ReachableInv(r: State)
    requires Reachable(r)
    ensures Inv(r)
  {
    hide Inv, Reaches;
    var run: seq<Action> :| Reaches(Init(), run, r);
    InitInv();
    RunKeeps(Init(), run, r);
  }

  /** After a poll answered Pending, with no wake in flight, either the awaiter was woken or no task
      that poll found in the set has finished, whatever was inserted and woken since. */
  lemma NoLostCompletion(r: State, i: nat)
    requires Reachable(r) && r.awaiter.pending && r.calls == map[] && !r.awaiter.woken
    requires i < |r.places.slots| && r.places.slots[i].member.Some? && r.places.slots[i].member.value in r.awaiter.seen
    ensures r.places.slots[i].member.value in r.tasks && r.tasks[r.places.slots[i].member.value].outcome.None?
  {
    ReachableInv(r);
    var w := r.places.slots[i].wake;
    assert TokenOk(r.places.slots, r.wakers, r.queue, r.front, r.calls, r.pc, w);
    assert WatchedAt(w, r.wakers[w].queued, r.tasks[r.places.slots[i].member.value], r.calls, r.pc);
  }

  // ----- a waker is queued at most once

  function Occurs(q: seq<WakerId>, w: WakerId): nat {
    if q == [] then 0 else Occurs(q[..|q| - 1], w) + if q[|q| - 1] == w then 1 else 0
  }

  /** The entries of `w` in the queue, the wakes between its flag and its push, and the entry popped
      and not cleared. */
  function Entries(s: State, w: WakerId): nat
    requires s.front <= |s.queue|
  {
    Occurs(s.queue[s.front..], w)
    + |set c | c in s.calls && s.calls[c] == Claiming(w)|
    + if s.pc.Clearing? && s.pc.w == w then 1 else 0
  }

  lemma {:induction false} OccursNone(q: seq<WakerId>, w: WakerId)
    requires w !in q
    ensures Occurs(q, w) == 0
  {
    if q != [] {
      OccursNone(q[..|q| - 1], w);
    }
  }

  lemma {:induction false} OccursOnce(q: seq<WakerId>, w: WakerId, i: nat)
    requires i < |q| && q[i] == w && forall j | 0 <= j < |q| && j != i :: q[j] != w
    ensures Occurs(q, w) == 1
  {
    if i == |q| - 1 {
      OccursNone(q[..i], w);
    } else {
      OccursOnce(q[..|q| - 1], w, i);
    }
  }

  lemma LinedOccurs(queue: seq<WakerId>, front: nat, wakers: map<WakerId, SlotWake>, w: WakerId)
    requires Lined(queue, front, wakers) && w in wakers
    requires wakers[w].token.InQueue? ==> front <= wakers[w].token.i < |queue| && queue[wakers[w].token.i] == w
    ensures Occurs(queue[front..], w) == if wakers[w].token.InQueue? then 1 else 0
  {
    var q := queue[front..];
    forall j | 0 <= j < |q| && q[j] == w ensures wakers[w].token == InQueue(front + j) {
      assert Is(wakers, queue[front + j], InQueue(front + j));
    }
    if wakers[w].token.InQueue? {
      OccursOnce(q, w, wakers[w].token.i - front);
    } else {
      OccursNone(q, w);
    }
  }

  lemma Claims(calls: map<CallId, Wake>, wakers: map<WakerId, SlotWake>, w: WakerId)
    requires Calls(calls, wakers) && w in wakers
    requires wakers[w].token.InCall? ==> wakers[w].token.c in calls && calls[wakers[w].token.c] == Claiming(w)
    ensures |set c | c in calls && calls[c] == Claiming(w)| == if wakers[w].token.InCall? then 1 else 0
  {
    var claims := set c | c in calls && calls[c] == Claiming(w);
    if wakers[w].token.InCall? {
      assert claims == {wakers[w].token.c};
    } else {
      assert claims == {};
    }
  }

  /** A live slot's waker has exactly one entry somewhere while its flag is up, and none while it is
      down; a waker left over from `detach_all` never has more than one. */
  lemma QueuedOnce(r: State, w: WakerId)
    requires Reachable(r) && w in r.wakers
    ensures r.front <= |r.queue|
    ensures Live(r.places.slots, r.wakers, w) ==> Entries(r, w) == if r.wakers[w].queued then 1 else 0
    ensures Entries(r, w) <= 1
  {
    ReachableInv(r);
    hide Reachable, Freed, Fates, Watched, Wired, Heard, Promise, Occurs, Calls;
    assert TokenOk(r.places.slots, r.wakers, r.queue, r.front, r.calls, r.pc, w);
    LinedOccurs(r.queue, r.front, r.wakers, w);
    Claims(r.calls, r.wakers, w);
  }

  // ----- conservation

  function JoinedIds(joined: seq<(TaskId, Outcome)>): set<TaskId> {
    set j | 0 <= j < |joined| :: joined[j].0
  }

  function DetachedIds(tasks: map<TaskId, Task>): set<TaskId> {
    set k | k in tasks && tasks[k].fate.Detached?
  }

  lemma MembersMore(slots: seq<Slot>)
    requires slots != [] && slots[|slots| - 1].member.Some?
    requires forall i, j | 0 <= i < j < |slots| && slots[i].member.Some? :: slots[i].member != slots[j].member
    ensures Members(slots) == Members(slots[..|slots| - 1]) + {slots[|slots| - 1].member.value}
    ensures slots[|slots| - 1].member.value !in Members(slots[..|slots| - 1])
  {
  }

  lemma {:induction false} MembersCount(slots: seq<Slot>)
    requires forall i, j | 0 <= i < j < |slots| && slots[i].member.Some? :: slots[i].member != slots[j].member
    ensures |Members(slots)| == Count(slots)
  {
    if slots != [] {
      var n := |slots| - 1;
      MembersCount(slots[..n]);
      var rest := Members(slots[..n]);
      if slots[n].member.Some? {
        MembersMore(slots);
      } else {
        assert Members(slots) == rest;
      }
    }
  }

  lemma {:induction false} JoinedCount(joined: seq<(TaskId, Outcome)>)
    requires forall i, j | 0 <= i < j < |joined| :: joined[i].0 != joined[j].0
    ensures |JoinedIds(joined)| == |joined|
  {
    if joined != [] {
      var n := |joined| - 1;
      JoinedCount(joined[..n]);
      assert JoinedIds(joined) == JoinedIds(joined[..n]) + {joined[n].0};
    }
  }

  /** `len` counts the members, the free list holds each empty slot once, and every task given to the
      set is in it, was joined once with its own id and outcome, or was detached: no two of these. */
  lemma Conserved(r: State)
    requires Reachable(r)
    ensures NoDup(r.places.free)
    ensures forall i :: i in r.places.free <==> 0 <= i < |r.places.slots| && r.places.slots[i].member.None?
    ensures forall i, j | 0 <= i < j < |r.joined| :: r.joined[i].0 != r.joined[j].0
    ensures forall j | 0 <= j < |r.joined| ::
              r.joined[j].0 in r.tasks && r.tasks[r.joined[j].0].outcome == Some(r.joined[j].1)
    ensures r.tasks.Keys == Members(r.places.slots) + JoinedIds(r.joined) + DetachedIds(r.tasks)
    ensures |r.tasks| == r.places.len + |r.joined| + |DetachedIds(r.tasks)|
  {
    ReachableInv(r);
    hide Reachable, Watched, Wired, Heard, Promise, Lined, Tokens, Calls;
    var m, j, d := Members(r.places.slots), JoinedIds(r.joined), DetachedIds(r.tasks);
    FatesSplit(r.places.slots, r.tasks, r.joined);
    MembersCount(r.places.slots);
    JoinedCount(r.joined);
    assert |m + j + d| == |m| + |j| + |d|;
    assert |r.tasks.Keys| == |r.tasks|;
  }

  lemma FatesSplit(slots: seq<Slot>, tasks: map<TaskId, Task>, joined: seq<(TaskId, Outcome)>)
    requires Fates(slots, tasks, joined)
    ensures tasks.Keys == Members(slots) + JoinedIds(joined) + DetachedIds(tasks)
    ensures Members(slots) !! JoinedIds(joined) && Members(slots) + JoinedIds(joined) !! DetachedIds(tasks)
    ensures forall i, j | 0 <= i < j < |slots| && slots[i].member.Some? :: slots[i].member != slots[j].member
    ensures forall i, j | 0 <= i < j < |joined| :: joined[i].0 != joined[j].0
    ensures forall j | 0 <= j < |joined| :: joined[j].0 in tasks && tasks[joined[j].0].outcome == Some(joined[j].1)
  {
    forall k | k in tasks ensures k in Members(slots) + JoinedIds(joined) + DetachedIds(tasks) {
      assert FateOk(slots, joined, k, tasks[k]);
    }
    forall j | 0 <= j < |joined| ensures tasks[joined[j].0].outcome == Some(joined[j].1) {
      assert FateOk(slots, joined, joined[j].0, tasks[joined[j].0]);
    }
  }

  // ----- no call is stuck

  /** What the set's thread can do next in its call, whatever the wakes did. */
  ghost function SetNext(s: State, c: CallId): Action
    requires !s.pc.Idle?
  {
    var answer := if s.front == |s.queue| then Empty else if FirstLinked(s) then Item else Busy;
    match s.pc
    case Popping(left) => if left == 0 then GiveUp else Pop(answer)
    case Clearing(_, _) => Clear
    case Polling(_, _) => PollMember(false, c)
    case Draining => DrainPop(answer)
  }

  function WakeNext(call: Wake, c: CallId): Action {
    match call
    case Flagging(_) => Flag(c)
    case Claiming(_) => Claim(c)
    case Linking(_) => Link(c)
    case Telling(_) => Tell(c)
  }

  /** In every reachable state every call in progress, the set's and each wake's, has a next step. */
  lemma NeverStuck(r: State, unused: CallId)
    requires Reachable(r) && unused !in r.calls
    ensures !r.pc.Idle? ==> Enabled(r, SetNext(r, unused))
    ensures forall c | c in r.calls :: Enabled(r, WakeNext(r.calls[c], c))
  {
    hide Reachable, Inv;
    ReachableInv(r);
    InvShaped(r);
    SetNotStuck(r, unused);
  }

  lemma SetNotStuck(s: State, unused: CallId)
    requires Inv(s) && Shaped(s) && unused !in s.calls
    ensures !s.pc.Idle? ==> Enabled(s, SetNext(s, unused))
    ensures forall c | c in s.calls :: Enabled(s, WakeNext(s.calls[c], c))
  {
    assert Lined(s.queue, s.front, s.wakers) && PcOk(s.pc, s.wakers, s.places) && Calls(s.calls, s.wakers);
    hide Inv, Shaped, Reachable;
    assert s.front < |s.queue| ==> Is(s.wakers, s.queue[s.front], InQueue(s.front));
  }
}
