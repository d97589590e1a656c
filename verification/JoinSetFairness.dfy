/** Bounded bypass: how soon a finished member of a `JoinSet` is joined. */
module JoinSetFairness {
  import opened Prelude
  import opened JoinSet
  import opened JoinSetProofs
  import opened JoinSetRuns

  /** A finished member: task `k` in slot `i`, whose waker `w` is at place `p` of the queue. */
  ghost predicate InLine(s: State, k: TaskId, i: nat, w: WakerId, p: nat) {
    && i < |s.places.slots| && s.places.slots[i] == Slot(w, Some(k))
    && k in s.tasks && s.tasks[k].outcome.Some?
    && Is(s.wakers, w, InQueue(p))
  }

  /** The set has popped the member's waker and is about to look at it. */
  ghost predicate Looked(s: State, k: TaskId, i: nat, w: WakerId) {
    && (s.pc.Clearing? || s.pc.Polling?) && s.pc.w == w
    && i < |s.places.slots| && s.places.slots[i] == Slot(w, Some(k)) && w in s.wakers && s.wakers[w].slot == i
    && k in s.tasks && s.tasks[k].outcome.Some?
  }

  ghost predicate Out(s: State, k: TaskId) {
    k in s.tasks && s.tasks[k].fate.Joined?
  }

  /** The entries popped since the queue's front was at `base`, and one more while a poll has yet to
      pop its first. */
  function Served(s: State, base: nat): int {
    s.front - base + if s.pc.Popping? && s.pc.left == s.places.len then 1 else 0
  }

  /** Joined, about to be looked at, or still in line with every poll that met no push under way since
      having popped an entry ahead of the member's. */
  ghost predicate Waits(s: State, k: TaskId, i: nat, w: WakerId, p: nat, base: nat, polls: int) {
    Out(s, k) || Looked(s, k, i, w) || (InLine(s, k, i, w, p) && polls <= Served(s, base))
  }

  /** The set keeps its tasks, and its look at the member of waker `w` does not find the budget spent. */
  predicate Counts(s: State, a: Action, w: WakerId) {
    !a.Detach? && !(a.PollMember? && a.refused && s.pc.Polling? && s.pc.w == w)
  }

  ghost predicate AllCount(s: State, run: seq<Action>, w: WakerId)
    decreases |run|
  {
    run != [] && Enabled(s, run[0]) ==> Counts(s, run[0], w) && AllCount(Apply(s, run[0]), run[1..], w)
  }

  /** What a step adds to the calls of `poll_join_next` that meet no push under way: such a call is
      counted when it begins, and no more once it meets one. */
  function PollBy(a: Action): int {
    if a.PollStart? then 1 else if a == Pop(Busy) then -1 else 0
  }

  /** The calls of `poll_join_next` in a run that meet no push under way. */
  function Polls(run: seq<Action>): int {
    if run == [] then 0 else PollBy(run[0]) + Polls(run[1..])
  }

  /** What the invariant says of a member in the queue. */
  lemma LinedFacts(s: State, k: TaskId, i: nat, w: WakerId, p: nat)
    requires Inv(s) && InLine(s, k, i, w, p)
    ensures s.wakers[w].slot == i && s.wakers[w].queued && s.front <= p < |s.queue| && s.queue[p] == w
    ensures s.places.len > 0 && !s.pc.Draining? && !(s.pc.Clearing? && s.pc.w == w) && s.tasks[k].fate == Member(i)
    ensures s.pc.Popping? || s.pc.Clearing? || s.pc.Polling? ==> s.pc.left <= s.places.len
    ensures s.pc.Clearing? || s.pc.Polling? ==> s.pc.left < s.places.len
    ensures forall j | 0 <= j < |s.places.slots| && j != i ::
              s.places.slots[j].wake != w && s.places.slots[j].member != Some(k)
  {
    hide Calls, Watched, Flagged, Promise, Heard, JoinSetProofs.Lined;
    assert TokenOk(s.places.slots, s.wakers, s.queue, s.front, s.calls, s.pc, w);
    CountSome(s.places.slots, i);
  }

  lemma InsertWaits(s: State, k: TaskId, i: nat, w: WakerId, p: nat, a: Action)
    requires Inv(s) && Shaped(s) && InLine(s, k, i, w, p) && a.Insert? && s.pc.Idle? && a.k !in s.tasks
             && a.w !in s.wakers
    ensures var r := DoInsert(s, a.k, a.w, a.done);
            InLine(r, k, i, w, p) && r.front == s.front && r.pc == s.pc
              && (r.places.free == s.places.free || s.places.free != [])
  {
    LinedFacts(s, k, i, w, p);
    SeatPre(s);
    hide Inv;
  }

  lemma PopWaits(s: State, k: TaskId, i: nat, w: WakerId, p: nat, base: nat, polls: int)
    requires Inv(s) && InLine(s, k, i, w, p) && polls <= Served(s, base)
    requires s.pc.Popping? && s.pc.left > 0 && s.front < |s.queue| && s.queue[s.front] in s.wakers
    ensures Waits(DoPop(s, Item), k, i, w, p, base, polls)
  {
    LinedFacts(s, k, i, w, p);
    assert Is(s.wakers, s.queue[s.front], InQueue(s.front)) by {
      hide Calls, Watched, Flagged, Promise, Heard, Freed, Fates, Wired, Tokens;
    }
    hide Inv;
  }

  lemma PollMemberWaits(s: State, k: TaskId, i: nat, w: WakerId, p: nat, base: nat, polls: int,
                        refused: bool, c: CallId)
    requires Inv(s) && Shaped(s) && s.pc.Polling?
    requires Looked(s, k, i, w) || (InLine(s, k, i, w, p) && polls <= Served(s, base))
    requires refused ==> s.pc.w != w && c !in s.calls
    ensures Waits(DoPollMember(s, refused, c), k, i, w, p, base, polls)
  {
    if InLine(s, k, i, w, p) {
      LinedFacts(s, k, i, w, p);
    }
    hide Inv;
  }

  /** A wake's step, or a task's finish, moves nothing of the set's own. */
  lemma WakeWaits(s: State, k: TaskId, i: nat, w: WakerId, p: nat, base: nat, polls: int, a: Action)
    requires Inv(s) && Enabled(s, a) && Waits(s, k, i, w, p, base, polls)
    requires a.Finish? || a.Ring? || a.Flag? || a.Claim? || a.Link? || a.Tell?
    ensures Waits(Apply(s, a), k, i, w, p, base, polls)
  {
    hide Inv, Shaped;
    if InLine(s, k, i, w, p) {
      LinedFacts(s, k, i, w, p);
    }
    if a.Claim? {
      ClaimOther(s, a.c);
    }
  }

  lemma ClaimOther(s: State, c: CallId)
    requires Inv(s) && c in s.calls && s.calls[c].Claiming?
    ensures s.calls[c].w in s.wakers && s.wakers[s.calls[c].w].token.InCall?
  {
    hide Watched, Flagged, Promise, Heard, Freed, Fates, Wired, Tokens, JoinSetProofs.Lined;
  }

  lemma SetWaits(s: State, k: TaskId, i: nat, w: WakerId, p: nat, base: nat, polls: int, a: Action)
    requires Inv(s) && Enabled(s, a) && InLine(s, k, i, w, p) && polls <= Served(s, base) && Counts(s, a, w)
    requires a.PollStart? || a.Pop? || a.GiveUp? || a.Clear? || a.DrainPop?
    ensures Waits(Apply(s, a), k, i, w, p, base, polls + PollBy(a))
  {
    hide Inv, Shaped;
    LinedFacts(s, k, i, w, p);
    if a == Pop(Item) {
      PopWaits(s, k, i, w, p, base, polls);
    }
  }

  lemma LookedStep(s: State, k: TaskId, i: nat, w: WakerId, p: nat, base: nat, polls: int, a: Action)
    requires Inv(s) && Enabled(s, a) && Looked(s, k, i, w) && Counts(s, a, w)
    requires a.Insert? || a.PollStart? || a.Pop? || a.GiveUp? || a.Clear? || a.DrainPop? || a.PollMember?
    ensures PollBy(a) == 0 && Waits(Apply(s, a), k, i, w, p, base, polls)
  {
    hide Inv, DoPollMember;
    if a.PollMember? {
      PollMemberWaits(s, k, i, w, p, base, polls, a.refused, a.c);
    }
  }

  /** A task joined stays joined. */
  lemma OutStays(s: State, k: TaskId, a: Action)
    requires Inv(s) && Enabled(s, a) && Out(s, k)
    ensures Out(Apply(s, a), k)
  {
    hide Inv;
  }

  lemma EnterStep(s: State, k: TaskId, i: nat, w: WakerId, p: nat, base: nat, polls: int, a: Action)
    requires Inv(s) && Enabled(s, a) && InLine(s, k, i, w, p) && polls <= Served(s, base) && Counts(s, a, w)
    requires a.Insert? || a.PollMember?
    ensures Waits(Apply(s, a), k, i, w, p, base, polls)
  {
    hide Inv, DoPollMember, DoInsert, Looked, Out, InLine;
    if a.PollMember? {
      PollMemberWaits(s, k, i, w, p, base, polls, a.refused, a.c);
    } else {
      InsertWaits(s, k, i, w, p, a);
    }
  }

  lemma WaitsStep(s: State, k: TaskId, i: nat, w: WakerId, p: nat, base: nat, polls: int, a: Action)
    requires Inv(s) && Enabled(s, a) && Waits(s, k, i, w, p, base, polls) && Counts(s, a, w)
    ensures Waits(Apply(s, a), k, i, w, p, base, polls + PollBy(a))
  {
    hide Inv, Apply, InLine, Looked, Out, Shaped;
    if Out(s, k) {
      OutStays(s, k, a);
    } else if a.Finish? || a.Ring? || a.Flag? || a.Claim? || a.Link? || a.Tell? {
      WakeWaits(s, k, i, w, p, base, polls, a);
    } else if Looked(s, k, i, w) {
      LookedStep(s, k, i, w, p, base, polls, a);
    } else if a.PollMember? || a.Insert? {
      EnterStep(s, k, i, w, p, base, polls, a);
    } else {
      SetWaits(s, k, i, w, p, base, polls, a);
    }
  }

  lemma {:induction false} WaitsRun(s: State, run: seq<Action>, r: State, k: TaskId, i: nat, w: WakerId, p: nat,
                                    base: nat, polls: int)
    requires Inv(s) && Reaches(s, run, r) && Waits(s, k, i, w, p, base, polls)
    requires AllCount(s, run, w)
    ensures Inv(r) && Waits(r, k, i, w, p, base, polls + Polls(run))
    decreases |run|
  {
    hide Inv, Apply, Enabled, Waits;
    if run != [] {
      WaitsStep(s, k, i, w, p, base, polls, run[0]);
      StepKeeps(s, run[0]);
      WaitsRun(Apply(s, run[0]), run[1..], r, k, i, w, p, base, polls + PollBy(run[0]));
    }
  }

  /** A finished member with `n` entries ahead of its own in the queue is joined within `n + 1` calls of
      `poll_join_next` that meet no push under way, however many calls meet one, however often other
      members are woken or find the budget spent, and whatever is inserted, meanwhile. */
  lemma BoundedBypass(s: State, run: seq<Action>, r: State, k: TaskId, i: nat, w: WakerId, p: nat)
    requires Reachable(s) && s.pc.Idle? && InLine(s, k, i, w, p) && s.front <= p
    requires Reaches(s, run, r) && r.pc.Idle?
    requires AllCount(s, run, w)
    requires Polls(run) > p - s.front
    ensures Out(r, k)
  {
    hide Reachable, Reaches, Inv, Apply, Enabled;
    ReachableInv(s);
    WaitsRun(s, run, r, k, i, w, p, s.front, 0);
    if InLine(r, k, i, w, p) {
      LinedFacts(r, k, i, w, p);
    }
  }

  /** Looks left to the call under way. */
  function Left(pc: Pc): nat {
    if pc.Popping? || pc.Clearing? || pc.Polling? then pc.left else 0
  }

  function Looks(run: seq<Action>): nat {
    if run == [] then 0 else (if run[0].Pop? then 1 else 0) + Looks(run[1..])
  }

  lemma {:induction false} LooksRun(s: State, run: seq<Action>, r: State)
    requires Reaches(s, run, r) && forall j | 0 <= j < |run| :: !run[j].PollStart?
    ensures Looks(run) + Left(r.pc) <= Left(s.pc)
    decreases |run|
  {
    if run != [] {
      LooksRun(Apply(s, run[0]), run[1..], r);
    }
  }

  /** From one start of `poll_join_next` to the next, the set makes at most as many looks as it had
      members at the start. */
  lemma LooksBounded(s: State, run: seq<Action>, r: State, raced: bool)
    requires Enabled(s, PollStart(raced)) && Reaches(Apply(s, PollStart(raced)), run, r)
    requires forall j | 0 <= j < |run| :: !run[j].PollStart?
    ensures Looks(run) <= s.places.len
  {
    LooksRun(Apply(s, PollStart(raced)), run, r);
  }
}
