/** `JoinSet` called with no wake in flight: its slots, free list, flags and ready queue changed in
    place, each call a run of the machine's steps. */
module JoinSetCalls {
  import opened Prelude
  import opened JoinSet
  import opened JoinSetProofs
  import opened JoinSetRuns

  lemma {:induction false} ReachesOn(s: State, run: seq<Action>, m: State, a: Action)
    requires Reaches(s, run, m) && Enabled(m, a)
    ensures Reaches(s, run + [a], Apply(m, a))
    decreases |run|
  {
    hide Apply, Enabled;
    if run == [] {
      assert Reaches(Apply(m, a), [], Apply(m, a));
    } else {
      ReachesOn(Apply(s, run[0]), run[1..], m, a);
      assert (run + [a])[1..] == run[1..] + [a];
    }
  }

  lemma StepReachable(m: State, a: Action)
    requires Reachable(m) && Enabled(m, a)
    ensures Reachable(Apply(m, a))
  {
    hide Apply, Enabled, Reaches;
    var run: seq<Action> :| Reaches(Init(), run, m);
    ReachesOn(Init(), run, m, a);
  }

  lemma ReachableShaped(s: State)
    requires Reachable(s)
    ensures Shaped(s)
  {
    ReachableInv(s);
    InvShaped(s);
  }

  datatype Polled = NoMembers | Ready(k: TaskId, outcome: Outcome) | NotReady

  class Set {
    var slots: seq<Slot>
    var free: seq<nat>
    var len: nat
    var wakers: map<WakerId, SlotWake>
    var nextWaker: WakerId
    var queue: seq<WakerId>
    var front: nat
    var tasks: map<TaskId, Task>
    var registered: bool
    var woken: bool
    /** What was joined so far, in order. */
    var joined: seq<(TaskId, Outcome)>
    ghost var pending: bool
    ghost var seen: set<TaskId>

    /** The machine's state, with the set's thread at `pc` and no wake in flight. */
    ghost function At(pc: Pc): State
      reads this
    {
      State(Places(slots, free, len), wakers, queue, front, map[], tasks, joined,
            Awaiter(registered, woken, pending, seen), pc)
    }

    ghost predicate Bounded()
      reads this
    {
      forall w | w in wakers :: w < nextWaker
    }

    ghost predicate Valid()
      reads this
    {
      Reachable(At(Idle)) && Bounded()
    }

    constructor ()
      ensures Valid() && len == 0 && tasks == map[]
    {
      slots, free, len, wakers, nextWaker, queue, front, tasks := [], [], 0, map[], 0, [], 0, map[];
      registered, woken, joined, pending, seen := false, false, [], false, {};
      new;
      assert At(Idle) == Init();
      assert Reaches(Init(), [], At(Idle));
    }

    /** The last free slot, or a new one. */
    method TakeSlot() returns (slot: nat)
      requires Shaped(At(Idle))
      modifies this`slots, this`free, this`wakers, this`nextWaker
      ensures (slot, Places(slots, free, len)) == Place(old(Places(slots, free, len)), old(nextWaker))
      ensures wakers == if old(free) != [] then old(wakers)
              else old(wakers)[old(nextWaker) := SlotWake(slot, false, Away)]
      ensures nextWaker >= old(nextWaker) && (old(free) == [] ==> nextWaker > old(nextWaker))
    {
      if free != [] {
        slot := free[|free| - 1];
        free := free[..|free| - 1];
      } else {
        slot := |slots|;
        wakers := wakers[nextWaker := SlotWake(slot, false, Away)];
        slots := slots + [Slot(nextWaker, None)];
        nextWaker := nextWaker + 1;
      }
    }

    /** Puts a waker at the end of the ready queue, unless it is in it. */
    method Enqueue(w: WakerId)
      requires w in wakers
      modifies this`wakers, this`queue
      ensures if old(wakers)[w].queued then wakers == old(wakers) && queue == old(queue)
              else wakers == SetFlag(old(wakers), w, true, InQueue(|old(queue)|)) && queue == old(queue) + [w]
    {
      if !wakers[w].queued {
        wakers := SetFlag(wakers, w, true, InQueue(|queue|));
        queue := queue + [w];
      }
    }

    /** Takes a task into the set: the next poll looks at it. */
    method Insert(k: TaskId, done: Option<Outcome>)
      requires Valid() && k !in tasks
      modifies this
      ensures Valid() && Shaped(old(At(Idle))) && At(Idle) == DoInsert(old(At(Idle)), k, old(nextWaker), done)
    {
      hide Reachable, Members, Apply, Enabled, Place, Shaped;
      ghost var s, w := At(Idle), nextWaker;
      InsertReaches(s, k, w, done);
      var slot := TakeSlot();
      PlaceIn(s, w);
      Seat(slot, k, done);
    }

    /** Puts a task in an empty slot, and the slot in the queue. */
    method Seat(slot: nat, k: TaskId, done: Option<Outcome>)
      requires slot < |slots| && slots[slot].wake in wakers
      modifies this`slots, this`len, this`tasks, this`wakers, this`queue
      ensures At(Idle) == SeatedIn(old(At(Idle)), slot, k, done)
    {
      var own := slots[slot].wake;
      slots := slots[slot := Slot(own, Some(k))];
      len := len + 1;
      tasks := tasks[k := Task(done, None, Fate.Member(slot))];
      Enqueue(own);
    }

    /** A slot's waker called: it queues itself once, and wakes the awaiter. */
    method WakeByRef(w: WakerId)
      requires Valid() && w in wakers
      modifies this`wakers, this`queue, this`registered, this`woken
      ensures Valid() && At(Idle) == Woken(old(At(Idle)), w)
    {
      hide Reachable;
      WokenReachable(At(Idle), w);
      Ring(w);
    }

    method Ring(w: WakerId)
      requires w in wakers
      modifies this`wakers, this`queue, this`registered, this`woken
      ensures At(Idle) == Woken(old(At(Idle)), w)
    {
      if !wakers[w].queued {
        Enqueue(w);
        if registered {
          registered, woken := false, true;
        }
      }
    }

    /** A task of the set finishes, and calls the waker it was given. */
    method Finish(k: TaskId, outcome: Outcome)
      requires Valid() && k in tasks && tasks[k].outcome.None?
      modifies this
      ensures Valid() && k in tasks && tasks[k].outcome == Some(outcome)
      ensures SameOutcomes(old(tasks)[k := tasks[k]], tasks)
      ensures slots == old(slots) && len == old(len) && joined == old(joined)
    {
      hide Reachable, Shaped;
      ghost var s := At(Idle);
      var waker := tasks[k].waker;
      if waker.Some? {
        WakerKnown(s, k);
        WakeByRef(waker.value);
      }
      FinishReaches(s, k, outcome);
      tasks := tasks[k := tasks[k].(outcome := Some(outcome), waker := None)];
      assert At(Idle) == Finished(s, k, outcome);
    }

    /** The first waker in the queue, out of it and with its flag down. */
    method PopReady(left: nat) returns (w: WakerId)
      requires Reachable(At(Popping(left + 1))) && front < |queue|
      modifies this`front, this`wakers
      ensures Reachable(At(Polling(w, left))) && w in wakers && (old(Bounded()) ==> Bounded())
      ensures w == queue[old(front)] && front == old(front) + 1
    {
      hide Reachable, Shaped;
      ghost var s := At(Popping(left + 1));
      FrontKnown(s);
      s := Taken(s, Pop(Item));
      w := queue[front];
      front := front + 1;
      wakers := SetFlag(wakers, w, wakers[w].queued, InSet);
      assert At(Clearing(w, left)) == s;
      s := Taken(s, Clear);
      wakers := SetFlag(wakers, w, false, Away);
      assert At(Polling(w, left)) == s;
    }

    /** The member of a slot is out of the set, with its outcome. */
    method Join(slot: nat, w: WakerId, k: TaskId, outcome: Outcome)
      requires slot < |slots| && k in tasks && len > 0
      modifies this`slots, this`free, this`len, this`tasks, this`joined, this`pending
      ensures At(Idle) == JoinedAs(old(At(Idle)), slot, w, k, outcome)
    {
      slots := slots[slot := Slot(w, None)];
      free := free + [slot];
      len := len - 1;
      tasks := tasks[k := tasks[k].(fate := Fate.Joined(|joined|))];
      joined := joined + [(k, outcome)];
      pending := false;
    }

    /** One look at the member a popped waker stands for, if it stands for one still. A join that finds
        the budget spent is `refused` its outcome and has its waker called. */
    method Look(w: WakerId, left: nat, refused: bool) returns (r: Polled)
      requires Reachable(At(Polling(w, left))) && w in wakers
      modifies this`slots, this`free, this`len, this`tasks, this`joined, this`pending, this`wakers, this`queue,
               this`registered, this`woken
      ensures !r.NoMembers? && SameOutcomes(old(tasks), tasks) && (old(Bounded()) ==> Bounded())
      ensures r.NotReady? ==>
                && Reachable(At(Popping(left))) && slots == old(slots) && len == old(len) && joined == old(joined)
                && pending == old(pending)
      ensures r.Ready? ==>
                && Reachable(At(Idle)) && joined == old(joined) + [(r.k, r.outcome)]
                && r.k in Members(old(slots)) && r.k in tasks && tasks[r.k].outcome == Some(r.outcome)
                && len + 1 == old(len)
    {
      hide Reachable, Shaped, Members;
      ghost var s := At(Polling(w, left));
      var slot := wakers[w].slot;
      LookReaches(s, refused);
      if slot < |slots| && slots[slot].wake == w && slots[slot].member.Some? {
        var k := slots[slot].member.value;
        MemberKnown(s, slot);
        if tasks[k].outcome.None? {
          tasks := tasks[k := tasks[k].(waker := Some(w))];
          r := NotReady;
        } else if refused {
          Ring(w);
          r := NotReady;
          assert At(Popping(left)) == Woken(s.(pc := Popping(left)), w);
        } else {
          r := Ready(k, tasks[k].outcome.value);
          Join(slot, w, k, r.outcome);
        }
      } else {
        r := NotReady;
      }
    }

    /** One poll: the outcome of a member that has finished, after no more looks than there are members. */
    method PollJoinNext() returns (r: Polled)
      requires Valid()
      modifies this
      ensures Valid() && SameOutcomes(old(tasks), tasks)
      ensures r.NoMembers? <==> old(len) == 0
      ensures r.Ready? ==>
                && joined == old(joined) + [(r.k, r.outcome)] && len + 1 == old(len)
                && r.k in Members(old(slots)) && r.k in old(tasks) && old(tasks)[r.k].outcome == Some(r.outcome)
      ensures r.NotReady? ==> joined == old(joined) && slots == old(slots) && len == old(len)
      ensures r.NotReady? && !woken ==> NoneFinished(slots, tasks)
      ensures front <= old(front) + old(len)
    {
      hide Reachable, Shaped, Members, NoneFinished, At, SameOutcomes;
      SameAtFirst(tasks);
      Register();
      if len == 0 {
        return NoMembers;
      }
      var left := len;
      while left > 0
        invariant Reachable(At(Popping(left))) && Bounded()
        invariant slots == old(slots) && len == old(len) && joined == old(joined) && SameOutcomes(old(tasks), tasks)
        invariant front + left <= old(front) + old(len)
      {
        var some := AnyReady(left);
        if !some {
          AnswerPending(left);
          return NotReady;
        }
        left := left - 1;
        ghost var before := tasks;
        var w := PopReady(left);
        var refused: bool := *;
        r := Look(w, left, refused);
        SameOn(old(tasks), before, tasks);
        if r.Ready? {
          OutcomeOf(old(tasks), tasks, r.k);
          return;
        }
      }
      AnswerPending(0);
      return NotReady;
    }

    /** The awaiter's registration. */
    method Register()
      requires Valid()
      modifies this`registered, this`woken, this`pending, this`seen
      ensures Bounded() && Reachable(if len == 0 then At(Idle) else At(Popping(len)))
    {
      hide Reachable, Shaped, Members;
      ghost var s := Taken(At(Idle), PollStart(false));
      pending := false;
      if len != 0 {
        registered, woken := true, false;
        seen := {};
      }
      assert s == if len == 0 then At(Idle) else At(Popping(len));
    }

    method AnyReady(left: nat) returns (some: bool)
      requires Reachable(At(Popping(left)))
      ensures front <= |queue| && (some <==> front < |queue|)
    {
      FrontKnown(At(Popping(left)));
      some := front < |queue|;
    }

    /** Pending: with looks left because the queue is empty, or with the awaiter woken to come back. */
    method AnswerPending(left: nat)
      requires Reachable(At(Popping(left))) && (left > 0 ==> front == |queue|) && Bounded()
      modifies this`woken, this`pending, this`seen
      ensures Valid() && (left == 0 ==> woken) && (!woken ==> NoneFinished(slots, tasks))
    {
      hide Reachable, Shaped, Members, NoneFinished;
      ghost var s := Taken(At(Popping(left)), if left == 0 then GiveUp else Pop(Empty));
      if left == 0 {
        woken := true;
      }
      pending, seen := true, Members(slots);
      assert At(Idle) == s;
      PendingTold(s);
    }

    /** Lets every member run on: the set is empty, its slots gone and its queue drained. */
    method DetachAll()
      requires Valid()
      modifies this
      ensures Valid() && len == 0 && slots == [] && front == |queue| && joined == old(joined)
      ensures SameOutcomes(old(tasks), tasks)
      ensures forall k | k in tasks ::
                tasks[k].fate == if old(tasks)[k].fate.Member? then Fate.Detached else old(tasks)[k].fate
    {
      hide Reachable, Shaped, SameOutcomes;
      DropSlots();
      ghost var after := tasks;
      FrontKnown(At(Draining));
      while front < |queue|
        invariant Reachable(At(Draining)) && Bounded() && front <= |queue|
        invariant tasks == after && len == 0 && slots == [] && joined == old(joined)
      {
        DropOne();
      }
      EndDrain();
    }

    method DropSlots()
      requires Valid()
      modifies this`slots, this`free, this`len, this`tasks, this`pending
      ensures Reachable(At(Draining)) && Bounded() && len == 0 && slots == []
      ensures SameOutcomes(old(tasks), tasks)
      ensures forall k | k in tasks ::
                tasks[k].fate == if old(tasks)[k].fate.Member? then Fate.Detached else old(tasks)[k].fate
    {
      hide Reachable, Shaped;
      ghost var s := Taken(At(Idle), Detach);
      slots, free, len := [], [], 0;
      pending := false;
      tasks := map k | k in tasks :: if tasks[k].fate.Member? then tasks[k].(fate := Fate.Detached) else tasks[k];
      assert At(Draining) == s;
    }

    /** One waker out of the queue and dropped, its flag left as it is. */
    method DropOne()
      requires Reachable(At(Draining)) && Bounded() && front < |queue|
      modifies this`front, this`wakers
      ensures Reachable(At(Draining)) && Bounded() && front == old(front) + 1
    {
      hide Reachable, Shaped;
      FrontKnown(At(Draining));
      ghost var s := Taken(At(Draining), DrainPop(Item));
      var w := queue[front];
      front := front + 1;
      wakers := SetFlag(wakers, w, wakers[w].queued, Away);
      assert At(Draining) == s;
    }

    ghost method EndDrain()
      requires Reachable(At(Draining)) && Bounded() && front == |queue|
      ensures Valid()
    {
      hide Reachable, Shaped;
      var s := Taken(At(Draining), DrainPop(Empty));
      assert At(Idle) == s;
    }
  }

  lemma SameAtFirst(a: map<TaskId, Task>)
    ensures SameOutcomes(a, a)
  {
  }

  lemma SameOn(a: map<TaskId, Task>, b: map<TaskId, Task>, c: map<TaskId, Task>)
    requires SameOutcomes(a, b) && SameOutcomes(b, c)
    ensures SameOutcomes(a, c)
  {
  }

  lemma OutcomeOf(a: map<TaskId, Task>, b: map<TaskId, Task>, k: TaskId)
    requires SameOutcomes(a, b) && k in b
    ensures k in a && a[k].outcome == b[k].outcome
  {
  }

  /** No member has finished. */
  ghost predicate NoneFinished(slots: seq<Slot>, tasks: map<TaskId, Task>) {
    forall i | 0 <= i < |slots| && slots[i].member.Some? ::
      slots[i].member.value in tasks && tasks[slots[i].member.value].outcome.None?
  }

  /** What the machine promises of a Pending answer with nothing in flight. */
  lemma PendingTold(s: State)
    requires Reachable(s) && s.awaiter.pending && s.calls == map[] && s.awaiter.seen == Members(s.places.slots)
    ensures !s.awaiter.woken ==> NoneFinished(s.places.slots, s.tasks)
  {
    hide Reachable;
    if !s.awaiter.woken {
      forall i | 0 <= i < |s.places.slots| && s.places.slots[i].member.Some?
        ensures s.places.slots[i].member.value in s.tasks && s.tasks[s.places.slots[i].member.value].outcome.None?
      {
        NoLostCompletion(s, i);
      }
    }
  }

  function JoinedAs(s: State, slot: nat, w: WakerId, k: TaskId, outcome: Outcome): State
    requires slot < |s.places.slots| && k in s.tasks && s.places.len > 0
  {
    s.(places := Places(s.places.slots[slot := Slot(w, None)], s.places.free + [slot], s.places.len - 1),
       tasks := s.tasks[k := s.tasks[k].(fate := Fate.Joined(|s.joined|))],
       joined := s.joined + [(k, outcome)], awaiter := s.awaiter.(pending := false))
  }

  /** Where a look leads. */
  lemma LookReaches(s: State, refused: bool)
    requires Reachable(s) && s.pc.Polling? && s.calls == map[] && s.pc.w in s.wakers
    ensures var w := s.pc.w;
            var slot := s.wakers[w].slot;
            var next := s.(pc := Popping(s.pc.left));
            if slot < |s.places.slots| && s.places.slots[slot].wake == w && s.places.slots[slot].member.Some? then
              var k := s.places.slots[slot].member.value;
              && k in s.tasks && s.places.len > 0
              && if s.tasks[k].outcome.None? then Reachable(next.(tasks := s.tasks[k := s.tasks[k].(waker := Some(w))]))
                 else if refused then Reachable(Woken(next, w))
                 else Reachable(JoinedAs(s.(pc := Idle), slot, w, k, s.tasks[k].outcome.value))
            else Reachable(next)
  {
    hide Reachable;
    ReachableShaped(s);
    LenCounts(s);
    var r := Taken(s, PollMember(refused, 0));
    if r.calls != map[] {
      assert r == s.(pc := Popping(s.pc.left), calls := map[0 := Flagging(s.pc.w)]);
      r := FlagOn(r, s.pc.w);
    }
  }

  /** The same tasks, with the same outcomes. */
  ghost predicate SameOutcomes(a: map<TaskId, Task>, b: map<TaskId, Task>) {
    a.Keys == b.Keys && forall k | k in a :: a[k].outcome == b[k].outcome
  }

  lemma WakerKnown(s: State, k: TaskId)
    requires Reachable(s) && k in s.tasks && s.tasks[k].waker.Some?
    ensures s.tasks[k].waker.value in s.wakers
  {
    ReachableInv(s);
  }

  lemma FrontKnown(s: State)
    requires Reachable(s)
    ensures s.front <= |s.queue| && (s.front < |s.queue| ==> s.queue[s.front] in s.wakers)
  {
    ReachableInv(s);
    assert s.front < |s.queue| ==> Is(s.wakers, s.queue[s.front], InQueue(s.front));
  }

  lemma MemberKnown(s: State, i: nat)
    requires Reachable(s) && i < |s.places.slots| && s.places.slots[i].member.Some?
    ensures s.places.slots[i].member.value in s.tasks && s.places.slots[i].member.value in Members(s.places.slots)
  {
    ReachableShaped(s);
  }

  lemma LenCounts(s: State)
    requires Reachable(s)
    ensures forall i | 0 <= i < |s.places.slots| && s.places.slots[i].member.Some? :: s.places.len > 0
  {
    ReachableInv(s);
    forall i | 0 <= i < |s.places.slots| && s.places.slots[i].member.Some? ensures s.places.len > 0 {
      CountSome(s.places.slots, i);
    }
  }

  /** The state after a task finished and its waker's whole call. */
  function Finished(s: State, k: TaskId, outcome: Outcome): State
    requires k in s.tasks && (s.tasks[k].waker.Some? ==> s.tasks[k].waker.value in s.wakers)
  {
    var on := if s.tasks[k].waker.Some? then Woken(s, s.tasks[k].waker.value) else s;
    on.(tasks := s.tasks[k := s.tasks[k].(outcome := Some(outcome), waker := None)])
  }

  lemma FinishReaches(s: State, k: TaskId, outcome: Outcome)
    requires Reachable(s) && s.calls == map[] && k in s.tasks && s.tasks[k].outcome.None?
    requires s.tasks[k].waker.Some? ==> s.tasks[k].waker.value in s.wakers
    ensures Reachable(Finished(s, k, outcome))
  {
    hide Reachable, Shaped;
    var r := Taken(s, Action.Finish(k, outcome, 0));
    if s.tasks[k].waker.Some? {
      r := FlagOn(r, s.tasks[k].waker.value);
    }
    assert r == Finished(s, k, outcome);
  }

  function SeatedIn(s: State, slot: nat, k: TaskId, done: Option<Outcome>): State
    requires slot < |s.places.slots| && s.places.slots[slot].wake in s.wakers
  {
    var own := s.places.slots[slot].wake;
    var fill := s.places.(slots := s.places.slots[slot := Slot(own, Some(k))], len := s.places.len + 1);
    var on := s.(places := fill, tasks := s.tasks[k := Task(done, None, Fate.Member(slot))]);
    if s.wakers[own].queued then on
    else on.(wakers := SetFlag(s.wakers, own, true, InQueue(|s.queue|)), queue := s.queue + [own])
  }

  lemma InsertReaches(s: State, k: TaskId, w: WakerId, done: Option<Outcome>)
    requires Reachable(s) && s.pc.Idle? && k !in s.tasks && w !in s.wakers
    ensures Shaped(s) && Reachable(DoInsert(s, k, w, done))
  {
    hide Reachable, Shaped;
    ReachableShaped(s);
    var r := Taken(s, Action.Insert(k, w, done));
  }

  lemma PlaceIn(s: State, w: WakerId)
    requires Shaped(s)
    ensures var (slot, p) := Place(s.places, w);
            && slot < |p.slots| && p.len == s.places.len
            && (p.slots[slot].wake in s.wakers || (s.places.free == [] && p.slots[slot].wake == w))
  {
  }

  /** An inserted task is a member, in the queue to be looked at, and every other task is as it was. */
  lemma InsertTakes(s: State, k: TaskId, w: WakerId, done: Option<Outcome>)
    requires Shaped(s) && k !in s.tasks && w !in s.wakers
    ensures var r := DoInsert(s, k, w, done);
            && k in Members(r.places.slots) && r.places.len == s.places.len + 1
            && r.tasks.Keys == s.tasks.Keys + {k} && r.tasks[k].outcome == done
            && (forall j | j in s.tasks :: r.tasks[j] == s.tasks[j])
            && (exists i :: 0 <= i < |r.places.slots| && r.places.slots[i].member == Some(k)
                            && r.places.slots[i].wake in r.wakers && r.wakers[r.places.slots[i].wake].queued)
  {
    var slot := Place(s.places, w).0;
    var r := DoInsert(s, k, w, done);
    assert r.places.slots[slot].member == Some(k);
  }

  /** The state after a whole call of a waker, with none other in flight. */
  function Woken(s: State, w: WakerId): State
    requires w in s.wakers
  {
    if s.wakers[w].queued then s
    else
      s.(wakers := SetFlag(s.wakers, w, true, InQueue(|s.queue|)), queue := s.queue + [w],
         awaiter := if s.awaiter.registered then s.awaiter.(registered := false, woken := true) else s.awaiter)
  }

  /** A waker's call just begun runs to its end. */
  lemma FlagOn(s: State, w: WakerId) returns (r: State)
    requires Reachable(s) && s.calls == map[0 := Flagging(w)] && w in s.wakers
    ensures Reachable(r) && r == Woken(s.(calls := map[]), w)
  {
    hide Reachable, Shaped;
    r := Taken(s, Flag(0));
    if s.wakers[w].queued {
      assert r.calls == map[];
    } else {
      assert r == s.(wakers := SetFlag(s.wakers, w, true, InCall(0)), calls := map[0 := Claiming(w)]);
      r := ClaimOn(r, w);
    }
  }

  lemma ClaimOn(s: State, w: WakerId) returns (r: State)
    requires Reachable(s) && s.calls == map[0 := Claiming(w)] && w in s.wakers && s.wakers[w].queued
    ensures Reachable(r)
    ensures r == s.(wakers := SetFlag(s.wakers, w, true, InQueue(|s.queue|)), queue := s.queue + [w], calls := map[],
                    awaiter := if s.awaiter.registered then s.awaiter.(registered := false, woken := true)
                               else s.awaiter)
  {
    hide Reachable, Shaped;
    r := Taken(s, Claim(0));
    r := Taken(r, Link(0));
    r := Taken(r, Tell(0));
    assert r.calls == map[];
  }

  lemma WokenReachable(s: State, w: WakerId)
    requires Reachable(s) && s.calls == map[] && w in s.wakers
    ensures Reachable(Woken(s, w))
  {
    hide Reachable, Shaped;
    var r := Taken(s, Ring(0, w));
    assert r.calls == map[0 := Flagging(w)] && r.(calls := map[]) == s;
    r := FlagOn(r, w);
  }

  /** One step of the machine. */
  lemma Taken(s: State, a: Action) returns (r: State)
    requires Reachable(s) && (Shaped(s) ==> Enabled(s, a))
    ensures Enabled(s, a) && r == Apply(s, a) && Reachable(r)
  {
    hide Reachable;
    ReachableShaped(s);
    StepReachable(s, a);
    r := Apply(s, a);
  }
}
