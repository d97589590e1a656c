/** What every step of a `JoinSet` keeps. */
module JoinSetProofs {
  import opened Prelude
  import opened JoinSet

  // ----- slots, the free list and the count

  function Count(slots: seq<Slot>): nat {
    if slots == [] then 0
    else Count(slots[..|slots| - 1]) + if slots[|slots| - 1].member.Some? then 1 else 0
  }

  lemma {:induction false} CountSome(slots: seq<Slot>, i: nat)
    requires i < |slots| && slots[i].member.Some?
    ensures Count(slots) > 0
  {
    if i < |slots| - 1 {
      CountSome(slots[..|slots| - 1], i);
    }
  }

  /** Each slot has its own waker. */
  ghost predicate Wired(slots: seq<Slot>, wakers: map<WakerId, SlotWake>) {
    forall i | 0 <= i < |slots| :: slots[i].wake in wakers && wakers[slots[i].wake].slot == i
  }

  ghost predicate NoDup(s: seq<nat>) {
    forall i, j | 0 <= i < j < |s| :: s[i] != s[j]
  }

  /** The free list holds each empty slot's index once, and `len` counts the others. */
  ghost predicate Freed(p: Places) {
    && (forall j | 0 <= j < |p.free| :: p.free[j] < |p.slots| && p.slots[p.free[j]].member.None?)
    && NoDup(p.free)
    && (forall i | 0 <= i < |p.slots| && p.slots[i].member.None? :: i in p.free)
    && p.len == Count(p.slots)
  }

  // ----- each waker's token

  ghost predicate Is(wakers: map<WakerId, SlotWake>, w: WakerId, t: Token) {
    w in wakers && wakers[w].token == t
  }

  ghost predicate Lined(queue: seq<WakerId>, front: nat, wakers: map<WakerId, SlotWake>) {
    front <= |queue| && forall i | front <= i < |queue| :: Is(wakers, queue[i], InQueue(i))
  }

  /** The token is where it says, and a live slot's flag is up exactly while its token is not away. */
  ghost predicate TokenOk(slots: seq<Slot>, wakers: map<WakerId, SlotWake>, queue: seq<WakerId>, front: nat,
                          calls: map<CallId, Wake>, pc: Pc, w: WakerId)
    requires w in wakers
  {
    match wakers[w].token
    case Away => Live(slots, wakers, w) ==> !wakers[w].queued
    case InQueue(i) => wakers[w].queued && front <= i < |queue| && queue[i] == w
    case InCall(c) => wakers[w].queued && c in calls && calls[c] == Claiming(w)
    case InSet => wakers[w].queued && pc.Clearing? && pc.w == w
  }

  ghost predicate Tokens(slots: seq<Slot>, wakers: map<WakerId, SlotWake>, queue: seq<WakerId>, front: nat,
                         calls: map<CallId, Wake>, pc: Pc) {
    forall w | w in wakers :: TokenOk(slots, wakers, queue, front, calls, pc, w)
  }

  ghost predicate Calls(calls: map<CallId, Wake>, wakers: map<WakerId, SlotWake>) {
    forall c | c in calls :: calls[c].w in wakers && (calls[c].Claiming? ==> Is(wakers, calls[c].w, InCall(c)))
  }

  predicate InPoll(pc: Pc) {
    pc.Popping? || pc.Clearing? || pc.Polling?
  }

  ghost predicate PcOk(pc: Pc, wakers: map<WakerId, SlotWake>, p: Places) {
    match pc
    case Draining => p.slots == []
    case Popping(left) => left <= p.len && p.len > 0
    case Clearing(w, left) => left < p.len && Is(wakers, w, InSet)
    case Polling(w, left) => left < p.len && w in wakers
    case _ => true
  }

  // ----- what becomes of each task

  ghost predicate Seated(slots: seq<Slot>, tasks: map<TaskId, Task>) {
    forall i | 0 <= i < |slots| && slots[i].member.Some? ::
      slots[i].member.value in tasks && tasks[slots[i].member.value].fate == Member(i)
  }

  ghost predicate FateOk(slots: seq<Slot>, joined: seq<(TaskId, Outcome)>, k: TaskId, t: Task) {
    match t.fate
    case Member(i) => i < |slots| && slots[i].member == Some(k)
    case Joined(j) => j < |joined| && t.outcome.Some? && joined[j] == (k, t.outcome.value)
    case Detached => true
  }

  ghost predicate Fates(slots: seq<Slot>, tasks: map<TaskId, Task>, joined: seq<(TaskId, Outcome)>) {
    && Seated(slots, tasks)
    && (forall k | k in tasks :: FateOk(slots, joined, k, tasks[k]))
    && (forall j | 0 <= j < |joined| :: joined[j].0 in tasks && tasks[joined[j].0].fate == Joined(j))
  }

  // ----- no completion is lost

  ghost predicate Flagged(calls: map<CallId, Wake>, w: WakerId) {
    exists c :: c in calls && calls[c] == Flagging(w)
  }

  /** A member's waker is up or about to be, the set is about to poll the member, or the task is
      unfinished and will wake it. */
  ghost predicate WatchedAt(w: WakerId, queued: bool, t: Task, calls: map<CallId, Wake>, pc: Pc) {
    && (t.waker.Some? ==> t.waker.value == w)
    && (queued || Flagged(calls, w) || (pc.Polling? && pc.w == w) || (t.outcome.None? && t.waker.Some?))
  }

  ghost predicate Watched(slots: seq<Slot>, wakers: map<WakerId, SlotWake>, tasks: map<TaskId, Task>,
                          calls: map<CallId, Wake>, pc: Pc) {
    forall i | 0 <= i < |slots| && slots[i].member.Some? && slots[i].wake in wakers && slots[i].member.value in tasks ::
      WatchedAt(slots[i].wake, wakers[slots[i].wake].queued, tasks[slots[i].member.value], calls, pc)
  }

  ghost predicate PastClaim(calls: map<CallId, Wake>) {
    exists c :: c in calls && (calls[c].Linking? || calls[c].Telling?)
  }

  /** Of the members the last poll found, none is in the queue. */
  ghost predicate NoneLined(slots: seq<Slot>, wakers: map<WakerId, SlotWake>, seen: set<TaskId>) {
    forall i | 0 <= i < |slots| && slots[i].member.Some? && slots[i].member.value in seen && slots[i].wake in wakers ::
      !wakers[slots[i].wake].token.InQueue?
  }

  /** While a poll runs and after it answered Pending, an awaiter not woken is registered; and after,
      unless a wake past its claim will wake it, no member that poll found is in the queue. */
  ghost predicate Promise(a: Awaiter, pc: Pc, slots: seq<Slot>, wakers: map<WakerId, SlotWake>,
                          calls: map<CallId, Wake>) {
    && (a.pending ==> pc.Idle?)
    && ((InPoll(pc) || a.pending) && !a.woken ==> a.registered)
    && (a.pending && !a.woken ==> PastClaim(calls) || NoneLined(slots, wakers, a.seen))
  }

  /** Wakers tasks were given are the set's, and the last poll saw only tasks given to the set. */
  ghost predicate Heard(tasks: map<TaskId, Task>, wakers: map<WakerId, SlotWake>, seen: set<TaskId>) {
    && (forall k | k in tasks && tasks[k].waker.Some? :: tasks[k].waker.value in wakers)
    && seen <= tasks.Keys
  }

  ghost predicate Inv(s: State) {
    && Heard(s.tasks, s.wakers, s.awaiter.seen)
    && Wired(s.places.slots, s.wakers)
    && Freed(s.places)
    && Lined(s.queue, s.front, s.wakers)
    && Tokens(s.places.slots, s.wakers, s.queue, s.front, s.calls, s.pc)
    && Calls(s.calls, s.wakers)
    && PcOk(s.pc, s.wakers, s.places)
    && Fates(s.places.slots, s.tasks, s.joined)
    && Watched(s.places.slots, s.wakers, s.tasks, s.calls, s.pc)
    && Promise(s.awaiter, s.pc, s.places.slots, s.wakers, s.calls)
  }

  lemma InitInv()
    ensures Inv(Init())
  {
  }

  // ----- what a change at one waker leaves alone

  /** Only waker `v`'s flag and token changed, or `v` is new. */
  ghost predicate Same(wakers: map<WakerId, SlotWake>, v: WakerId, after: map<WakerId, SlotWake>) {
    && after - {v} == wakers - {v}
    && (v in wakers ==> v in after && after[v].slot == wakers[v].slot)
  }

  lemma SetFlagSame(wakers: map<WakerId, SlotWake>, v: WakerId, queued: bool, t: Token)
    requires v in wakers
    ensures Same(wakers, v, SetFlag(wakers, v, queued, t))
  {
  }

  lemma WiredKept(slots: seq<Slot>, wakers: map<WakerId, SlotWake>, v: WakerId, after: map<WakerId, SlotWake>)
    requires Wired(slots, wakers) && Same(wakers, v, after)
    ensures Wired(slots, after)
  {
    forall i | 0 <= i < |slots| ensures slots[i].wake in after && after[slots[i].wake].slot == i {
      if slots[i].wake != v {
        assert slots[i].wake in wakers - {v};
      }
    }
  }

  /** The queue loses `v` at its front, or gains it at its end, or is as it was. */
  ghost predicate Moves(queue: seq<WakerId>, front: nat, v: WakerId, queue': seq<WakerId>, front': nat) {
    || (queue' == queue && front' == front)
    || (queue' == queue && front' == front + 1 && front < |queue| && queue[front] == v)
    || (queue' == queue + [v] && front' == front)
  }

  lemma LinedKept(queue: seq<WakerId>, front: nat, wakers: map<WakerId, SlotWake>, v: WakerId,
                  queue': seq<WakerId>, front': nat, after: map<WakerId, SlotWake>)
    requires Lined(queue, front, wakers) && Same(wakers, v, after) && Moves(queue, front, v, queue', front')
    requires v in wakers && wakers[v].token.InQueue? ==> front' == front + 1 || after == wakers
    requires queue' != queue ==> Is(after, v, InQueue(|queue|))
    ensures Lined(queue', front', after)
  {
    forall i | front' <= i < |queue'| ensures Is(after, queue'[i], InQueue(i)) {
      if i < |queue| {
        assert Is(wakers, queue[i], InQueue(i));
        if front' == front + 1 {
          assert Is(wakers, queue[front], InQueue(front));
        }
        if after != wakers {
          assert queue[i] in wakers - {v};
        }
      }
    }
  }

  lemma TokensKept(slots: seq<Slot>, wakers: map<WakerId, SlotWake>, queue: seq<WakerId>, front: nat,
                   calls: map<CallId, Wake>, pc: Pc, v: WakerId,
                   slots': seq<Slot>, after: map<WakerId, SlotWake>, queue': seq<WakerId>, front': nat,
                   calls': map<CallId, Wake>, pc': Pc)
    requires Tokens(slots, wakers, queue, front, calls, pc)
    requires Same(wakers, v, after) && Moves(queue, front, v, queue', front')
    requires v in after ==> TokenOk(slots', after, queue', front', calls', pc', v)
    requires forall c | c in calls && calls[c].Claiming? && calls[c].w != v :: c in calls' && calls'[c] == calls[c]
    requires pc.Clearing? && pc.w != v ==> pc' == pc
    requires forall w | w != v && Live(slots', wakers, w) :: Live(slots, wakers, w)
    ensures Tokens(slots', after, queue', front', calls', pc')
  {
    forall w | w in after && w != v ensures TokenOk(slots', after, queue', front', calls', pc', w) {
      assert w in after - {v};
      assert TokenOk(slots, wakers, queue, front, calls, pc, w);
    }
  }

  lemma CallsKept(calls: map<CallId, Wake>, wakers: map<WakerId, SlotWake>, v: WakerId, after: map<WakerId, SlotWake>,
                  c: CallId, calls': map<CallId, Wake>)
    requires Calls(calls, wakers) && Same(wakers, v, after) && calls' - {c} == calls - {c}
    requires c in calls' ==> calls'[c].w in after && (calls'[c].Claiming? ==> Is(after, calls'[c].w, InCall(c)))
    requires v in wakers && wakers[v].token.InCall? ==> wakers[v].token.c == c || after == wakers
    ensures Calls(calls', after)
  {
    forall d | d in calls' && d != c
      ensures calls'[d].w in after && (calls'[d].Claiming? ==> Is(after, calls'[d].w, InCall(d)))
    {
      assert d in calls' - {c};
      if calls[d].w != v {
        assert calls[d].w in wakers - {v};
      }
    }
  }

  lemma CallsSame(calls: map<CallId, Wake>, wakers: map<WakerId, SlotWake>, v: WakerId, after: map<WakerId, SlotWake>)
    requires Calls(calls, wakers) && Same(wakers, v, after) && (v in wakers ==> !wakers[v].token.InCall?)
    ensures Calls(calls, after)
  {
    forall d | d in calls ensures calls[d].w in after && (calls[d].Claiming? ==> Is(after, calls[d].w, InCall(d))) {
      if calls[d].w != v {
        assert calls[d].w in wakers - {v};
      }
    }
  }

  lemma HeardKept(tasks: map<TaskId, Task>, wakers: map<WakerId, SlotWake>, seen: set<TaskId>,
                  v: WakerId, after: map<WakerId, SlotWake>)
    requires Heard(tasks, wakers, seen) && Same(wakers, v, after)
    ensures Heard(tasks, after, seen)
  {
    forall k | k in tasks && tasks[k].waker.Some? ensures tasks[k].waker.value in after {
      if tasks[k].waker.value != v {
        assert tasks[k].waker.value in wakers - {v};
      }
    }
  }

  ghost predicate Guarded(queued: bool, calls: map<CallId, Wake>, pc: Pc, w: WakerId) {
    queued || Flagged(calls, w) || (pc.Polling? && pc.w == w)
  }

  lemma WatchedKept(slots: seq<Slot>, wakers: map<WakerId, SlotWake>, tasks: map<TaskId, Task>,
                    calls: map<CallId, Wake>, pc: Pc, v: WakerId,
                    after: map<WakerId, SlotWake>, calls': map<CallId, Wake>, pc': Pc)
    requires Wired(slots, wakers) && Watched(slots, wakers, tasks, calls, pc) && Same(wakers, v, after)
    requires forall w | w != v && Flagged(calls, w) :: Flagged(calls', w)
    requires pc.Polling? && pc.w != v ==> pc' == pc
    requires v in wakers && Guarded(wakers[v].queued, calls, pc, v) ==> Guarded(after[v].queued, calls', pc', v)
    ensures Watched(slots, after, tasks, calls', pc')
  {
    forall i | 0 <= i < |slots| && slots[i].member.Some? && slots[i].wake in after && slots[i].member.value in tasks
      ensures WatchedAt(slots[i].wake, after[slots[i].wake].queued, tasks[slots[i].member.value], calls', pc')
    {
      var w := slots[i].wake;
      assert WatchedAt(w, wakers[w].queued, tasks[slots[i].member.value], calls, pc);
      if w != v {
        assert w in wakers - {v};
      }
    }
  }

  lemma PromiseKept(a: Awaiter, pc: Pc, slots: seq<Slot>, wakers: map<WakerId, SlotWake>, calls: map<CallId, Wake>,
                    v: WakerId, after: map<WakerId, SlotWake>, calls': map<CallId, Wake>)
    requires Wired(slots, wakers) && Promise(a, pc, slots, wakers, calls) && Same(wakers, v, after)
    requires PastClaim(calls) ==> PastClaim(calls')
    requires v in after && after[v].token.InQueue? ==> PastClaim(calls') || (v in wakers && wakers[v].token.InQueue?)
    ensures Promise(a, pc, slots, after, calls')
  {
    if a.pending && !a.woken && !PastClaim(calls') {
      forall i | 0 <= i < |slots| && slots[i].member.Some? && slots[i].member.value in a.seen && slots[i].wake in after
        ensures !after[slots[i].wake].token.InQueue?
      {
        assert slots[i].wake in wakers && !wakers[slots[i].wake].token.InQueue?;
        if slots[i].wake != v {
          assert slots[i].wake in wakers - {v};
        }
      }
    }
  }

  lemma FlaggedOthers(calls: map<CallId, Wake>, c: CallId, calls': map<CallId, Wake>, v: WakerId)
    requires calls' - {c} == calls - {c} && (c in calls && calls[c].Flagging? ==> calls[c].w == v)
    ensures forall w | w != v && Flagged(calls, w) :: Flagged(calls', w)
  {
    forall w | w != v && Flagged(calls, w) ensures Flagged(calls', w) {
      var d :| d in calls && calls[d] == Flagging(w);
      assert d in calls - {c};
    }
  }

  lemma PastOthers(calls: map<CallId, Wake>, c: CallId, calls': map<CallId, Wake>)
    requires calls' - {c} == calls - {c}
    requires c in calls && (calls[c].Linking? || calls[c].Telling?)
             ==> c in calls' && (calls'[c].Linking? || calls'[c].Telling?)
    ensures PastClaim(calls) ==> PastClaim(calls')
  {
    if PastClaim(calls) {
      var d :| d in calls && (calls[d].Linking? || calls[d].Telling?);
      assert d == c || d in calls - {c};
    }
  }

  lemma PcKept(pc: Pc, wakers: map<WakerId, SlotWake>, p: Places, v: WakerId, after: map<WakerId, SlotWake>)
    requires PcOk(pc, wakers, p) && Same(wakers, v, after)
    requires v in wakers && wakers[v].token.InSet? ==> after == wakers
    ensures PcOk(pc, after, p)
  {
    if (pc.Clearing? || pc.Polling?) && pc.w != v {
      assert pc.w in wakers - {v};
    }
  }

  // ----- a wake's steps

  /** A step of call `c` about waker `v`, which the set's own state is untouched by. */
  lemma CallKeeps(s: State, c: CallId, v: WakerId, r: State)
    requires Inv(s) && r == s.(wakers := r.wakers, queue := r.queue, calls := r.calls)
    requires Same(s.wakers, v, r.wakers) && v in s.wakers && Moves(s.queue, s.front, v, r.queue, r.front)
    requires r.calls - {c} == s.calls - {c} && (c in s.calls ==> s.calls[c].w == v)
             && (c in r.calls ==> r.calls[c].w == v)
    requires TokenOk(r.places.slots, r.wakers, r.queue, r.front, r.calls, r.pc, v)
    requires s.wakers[v].token.InQueue? || s.wakers[v].token.InSet? ==> r.wakers == s.wakers
    requires s.wakers[v].token.InCall? ==> r.wakers == s.wakers || s.wakers[v].token.c == c
    requires r.queue != s.queue ==> Is(r.wakers, v, InQueue(|s.queue|)) && c in r.calls && r.calls[c].Linking?
    requires r.wakers[v].token.InQueue? && !s.wakers[v].token.InQueue? ==> r.queue != s.queue
    requires c in r.calls && r.calls[c].Claiming? ==> Is(r.wakers, v, InCall(c))
    requires s.wakers[v].queued ==> r.wakers[v].queued
    requires c in s.calls && s.calls[c].Flagging? ==> r.wakers[v].queued
    requires c in s.calls && (s.calls[c].Linking? || s.calls[c].Telling?)
             ==> c in r.calls && (r.calls[c].Linking? || r.calls[c].Telling?)
    ensures Inv(r)
  {
    hide Freed, Fates, Tokens, Watched, Lined, Calls, Wired, Promise, Flagged, Heard;
    HeardKept(s.tasks, s.wakers, s.awaiter.seen, v, r.wakers);
    WiredKept(s.places.slots, s.wakers, v, r.wakers);
    LinedKept(s.queue, s.front, s.wakers, v, r.queue, r.front, r.wakers);
    assert forall d | d in s.calls && d != c :: d in s.calls - {c};
    TokensKept(s.places.slots, s.wakers, s.queue, s.front, s.calls, s.pc, v,
               s.places.slots, r.wakers, r.queue, r.front, r.calls, r.pc);
    CallsKept(s.calls, s.wakers, v, r.wakers, c, r.calls);
    FlaggedOthers(s.calls, c, r.calls, v);
    PastOthers(s.calls, c, r.calls);
    if !(c in s.calls && s.calls[c].Flagging?) {
      FlaggedSelf(s.calls, c, r.calls, v);
    }
    WatchedKept(s.places.slots, s.wakers, s.tasks, s.calls, s.pc, v, r.wakers, r.calls, r.pc);
    assert r.queue != s.queue ==> PastClaim(r.calls);
    PcKept(s.pc, s.wakers, s.places, v, r.wakers);
    PromiseKept(s.awaiter, s.pc, s.places.slots, s.wakers, s.calls, v, r.wakers, r.calls);
  }

  lemma FlaggedSelf(calls: map<CallId, Wake>, c: CallId, calls': map<CallId, Wake>, v: WakerId)
    requires calls' - {c} == calls - {c} && !(c in calls && calls[c].Flagging?)
    ensures Flagged(calls, v) ==> Flagged(calls', v)
  {
    if Flagged(calls, v) {
      var d :| d in calls && calls[d] == Flagging(v);
      assert d in calls - {c};
    }
  }

  lemma RingKeeps(s: State, c: CallId, w: WakerId)
    requires Inv(s) && c !in s.calls && w in s.wakers
    ensures Inv(s.(calls := s.calls[c := Flagging(w)]))
  {
    hide Freed, Fates, Watched, Lined, Wired, Promise, Calls;
    assert TokenOk(s.places.slots, s.wakers, s.queue, s.front, s.calls, s.pc, w);
    CallKeeps(s, c, w, s.(calls := s.calls[c := Flagging(w)]));
  }

  lemma FlagKeeps(s: State, c: CallId)
    requires Inv(s) && c in s.calls && s.calls[c].Flagging? && s.calls[c].w in s.wakers
    ensures Inv(DoFlag(s, c))
  {
    hide Freed, Fates, Watched, Lined, Wired, Promise, Calls;
    var w := s.calls[c].w;
    assert TokenOk(s.places.slots, s.wakers, s.queue, s.front, s.calls, s.pc, w);
    CallKeeps(s, c, w, DoFlag(s, c));
  }

  lemma ClaimKeeps(s: State, c: CallId)
    requires Inv(s) && c in s.calls && s.calls[c].Claiming? && s.calls[c].w in s.wakers
    ensures Inv(DoClaim(s, c))
  {
    hide Freed, Fates, Watched, Wired, Promise;
    var w := s.calls[c].w;
    assert TokenOk(s.places.slots, s.wakers, s.queue, s.front, s.calls, s.pc, w);
    CallKeeps(s, c, w, DoClaim(s, c));
  }

  lemma LinkKeeps(s: State, c: CallId)
    requires Inv(s) && c in s.calls && s.calls[c].Linking?
    ensures Inv(s.(calls := s.calls[c := Telling(s.calls[c].w)]))
  {
    hide Freed, Fates, Watched, Lined, Wired, Promise;
    var w := s.calls[c].w;
    assert TokenOk(s.places.slots, s.wakers, s.queue, s.front, s.calls, s.pc, w);
    CallKeeps(s, c, w, s.(calls := s.calls[c := Telling(w)]));
  }

  lemma TellKeeps(s: State, c: CallId)
    requires Inv(s) && c in s.calls && s.calls[c].Telling?
    ensures Inv(DoTell(s, c))
  {
    hide Freed, Fates, Watched, Lined, Wired, Tokens, Calls, Flagged;
    var w := s.calls[c].w;
    var r := DoTell(s, c);
    assert forall d | d in s.calls && d != c :: d in r.calls && r.calls[d] == s.calls[d];
    TellTokens(s, c);
    FlaggedOthers(s.calls, c, r.calls, w);
    FlaggedSelf(s.calls, c, r.calls, w);
    CallsLess(s.calls, s.wakers, c);
    WatchedKept(s.places.slots, s.wakers, s.tasks, s.calls, s.pc, w, s.wakers, r.calls, s.pc);
  }

  lemma CallsLess(calls: map<CallId, Wake>, wakers: map<WakerId, SlotWake>, c: CallId)
    requires Calls(calls, wakers)
    ensures Calls(calls - {c}, wakers)
  {
  }

  lemma TellTokens(s: State, c: CallId)
    requires Inv(s) && c in s.calls && s.calls[c].Telling?
    ensures Tokens(s.places.slots, s.wakers, s.queue, s.front, s.calls - {c}, s.pc)
  {
    hide Freed, Fates, Watched, Lined, Wired, Promise;
    forall w | w in s.wakers ensures TokenOk(s.places.slots, s.wakers, s.queue, s.front, s.calls - {c}, s.pc, w) {
      assert TokenOk(s.places.slots, s.wakers, s.queue, s.front, s.calls, s.pc, w);
    }
  }

  // ----- a task finishes

  lemma TaskKeeps(s: State, k: TaskId, t: Task)
    requires Inv(s) && k in s.tasks && s.tasks[k].outcome.None?
    requires t.fate == s.tasks[k].fate && t.waker.None?
             && (s.tasks[k].waker.Some? ==> Flagged(s.calls, s.tasks[k].waker.value))
    ensures Inv(s.(tasks := s.tasks[k := t]))
  {
    hide Freed, Tokens, Lined, Wired, Promise, Flagged, Calls;
    var r := s.(tasks := s.tasks[k := t]);
    FinishFates(s.places.slots, s.tasks, s.joined, k, t);
    var slots := s.places.slots;
    forall i | 0 <= i < |slots| && slots[i].member.Some? && slots[i].wake in r.wakers
      && slots[i].member.value in r.tasks
      ensures WatchedAt(slots[i].wake, r.wakers[slots[i].wake].queued, r.tasks[slots[i].member.value], r.calls, r.pc)
    {
      assert WatchedAt(slots[i].wake, s.wakers[slots[i].wake].queued, s.tasks[slots[i].member.value], s.calls, s.pc);
    }
  }

  lemma FinishKeeps(s: State, k: TaskId, outcome: Outcome, c: CallId)
    requires Inv(s) && k in s.tasks && s.tasks[k].outcome.None? && c !in s.calls
    ensures Inv(DoFinish(s, k, outcome, c))
  {
    hide Freed, Tokens, Lined, Wired, Promise, Calls, Watched, Fates, PcOk;
    var done := s.tasks[k].(outcome := Some(outcome), waker := None);
    if s.tasks[k].waker.Some? {
      var w := s.tasks[k].waker.value;
      RingKeeps(s, c, w);
      var on := s.(calls := s.calls[c := Flagging(w)]);
      assert on.calls[c] == Flagging(w);
      TaskKeeps(on, k, done);
    } else {
      TaskKeeps(s, k, done);
    }
  }

  lemma FinishFates(slots: seq<Slot>, tasks: map<TaskId, Task>, joined: seq<(TaskId, Outcome)>, k: TaskId, t: Task)
    requires Fates(slots, tasks, joined) && k in tasks && tasks[k].outcome.None? && t.fate == tasks[k].fate
    ensures Fates(slots, tasks[k := t], joined)
  {
    forall m | m in tasks ensures FateOk(slots, joined, m, tasks[k := t][m]) {
      assert FateOk(slots, joined, m, tasks[m]);
    }
    forall j | 0 <= j < |joined| ensures joined[j].0 in tasks && tasks[k := t][joined[j].0].fate == Joined(j) {
      assert FateOk(slots, joined, joined[j].0, tasks[joined[j].0]);
    }
  }

  // ----- a poll's steps

  lemma PollStartKeeps(s: State, raced: bool)
    requires Inv(s) && s.pc.Idle?
    ensures Inv(DoPollStart(s, raced))
  {
    hide Freed, Tokens, Lined, Wired, Calls, Watched, Fates;
    var r := DoPollStart(s, raced);
    PcTokens(s.places.slots, s.wakers, s.queue, s.front, s.calls, s.pc, r.pc);
    PcWatched(s.places.slots, s.wakers, s.tasks, s.calls, s.pc, r.pc);
  }

  lemma PcTokens(slots: seq<Slot>, wakers: map<WakerId, SlotWake>, queue: seq<WakerId>, front: nat,
                 calls: map<CallId, Wake>, pc: Pc, pc': Pc)
    requires Tokens(slots, wakers, queue, front, calls, pc) && !pc.Clearing?
    ensures Tokens(slots, wakers, queue, front, calls, pc')
  {
    forall w | w in wakers ensures TokenOk(slots, wakers, queue, front, calls, pc', w) {
      assert TokenOk(slots, wakers, queue, front, calls, pc, w);
    }
  }

  lemma PcWatched(slots: seq<Slot>, wakers: map<WakerId, SlotWake>, tasks: map<TaskId, Task>,
                  calls: map<CallId, Wake>, pc: Pc, pc': Pc)
    requires Watched(slots, wakers, tasks, calls, pc) && !pc.Polling?
    ensures Watched(slots, wakers, tasks, calls, pc')
  {
    forall i | 0 <= i < |slots| && slots[i].member.Some? && slots[i].wake in wakers && slots[i].member.value in tasks
      ensures WatchedAt(slots[i].wake, wakers[slots[i].wake].queued, tasks[slots[i].member.value], calls, pc')
    {
      assert WatchedAt(slots[i].wake, wakers[slots[i].wake].queued, tasks[slots[i].member.value], calls, pc);
    }
  }

  /** Pending: after Empty nothing is in the queue, after Busy some wake is past its claim, and after
      the last look the awaiter is woken. */
  lemma PendingKeeps(s: State, woken: bool)
    requires Inv(s) && s.pc.Popping? && (s.awaiter.woken ==> woken)
    requires woken || PastClaim(s.calls) || s.front == |s.queue|
    ensures Inv(Pending(s, woken))
  {
    hide Freed, Lined, Calls, Watched, Fates, Flagged;
    var r := Pending(s, woken);
    var slots := s.places.slots;
    PcTokens(slots, s.wakers, s.queue, s.front, s.calls, s.pc, r.pc);
    PcWatched(slots, s.wakers, s.tasks, s.calls, s.pc, r.pc);
    assert r.awaiter.seen <= r.tasks.Keys by {
      SeenMembers(slots, s.tasks, s.joined);
    }
    forall i | 0 <= i < |slots| && slots[i].wake in s.wakers && s.front == |s.queue|
      ensures !s.wakers[slots[i].wake].token.InQueue?
    {
      assert TokenOk(slots, s.wakers, s.queue, s.front, s.calls, s.pc, slots[i].wake);
    }
  }

  lemma SeenMembers(slots: seq<Slot>, tasks: map<TaskId, Task>, joined: seq<(TaskId, Outcome)>)
    requires Fates(slots, tasks, joined)
    ensures Members(slots) <= tasks.Keys
  {
  }

  lemma PopItemKeeps(s: State)
    requires Inv(s) && s.pc.Popping? && s.pc.left > 0 && s.front < |s.queue| && s.queue[s.front] in s.wakers
    ensures Inv(DoPop(s, Item))
  {
    hide Freed, Calls, Watched, Fates, Flagged, Promise, Wired, Tokens, Heard;
    var w := s.queue[s.front];
    var r := DoPop(s, Item);
    HeardKept(s.tasks, s.wakers, s.awaiter.seen, w, r.wakers);
    assert Is(s.wakers, w, InQueue(s.front));
    SetFlagSame(s.wakers, w, s.wakers[w].queued, InSet);
    PopTokens(s);
    WiredKept(s.places.slots, s.wakers, w, r.wakers);
    LinedKept(s.queue, s.front, s.wakers, w, r.queue, r.front, r.wakers);
    CallsSame(s.calls, s.wakers, w, r.wakers);
    WatchedKept(s.places.slots, s.wakers, s.tasks, s.calls, s.pc, w, r.wakers, r.calls, r.pc);
    PromiseKept(s.awaiter, s.pc, s.places.slots, s.wakers, s.calls, w, r.wakers, r.calls);
    PromisePc(s.awaiter, s.pc, s.places.slots, r.wakers, s.calls, r.pc);
  }

  lemma PromisePc(a: Awaiter, pc: Pc, slots: seq<Slot>, wakers: map<WakerId, SlotWake>, calls: map<CallId, Wake>,
                  pc': Pc)
    requires Promise(a, pc, slots, wakers, calls) && InPoll(pc) && InPoll(pc')
    ensures Promise(a, pc', slots, wakers, calls)
  {
  }

  lemma PopTokens(s: State)
    requires Inv(s) && s.pc.Popping? && s.pc.left > 0 && s.front < |s.queue| && s.queue[s.front] in s.wakers
    ensures var r := DoPop(s, Item); Tokens(r.places.slots, r.wakers, r.queue, r.front, r.calls, r.pc)
  {
    hide Freed, Watched, Fates, Flagged, Promise, Wired, Calls;
    var w := s.queue[s.front];
    var r := DoPop(s, Item);
    assert Is(s.wakers, w, InQueue(s.front));
    assert TokenOk(s.places.slots, s.wakers, s.queue, s.front, s.calls, s.pc, w);
    TokensKept(s.places.slots, s.wakers, s.queue, s.front, s.calls, s.pc, w,
               r.places.slots, r.wakers, r.queue, r.front, r.calls, r.pc);
  }

  lemma ClearKeeps(s: State)
    requires Inv(s) && s.pc.Clearing? && s.pc.w in s.wakers
    ensures Inv(DoClear(s))
  {
    hide Freed, Calls, Watched, Fates, Flagged, Promise, Wired, Lined, Tokens, Heard;
    var w := s.pc.w;
    var r := DoClear(s);
    HeardKept(s.tasks, s.wakers, s.awaiter.seen, w, r.wakers);
    SetFlagSame(s.wakers, w, false, Away);
    ClearTokens(s);
    WiredKept(s.places.slots, s.wakers, w, r.wakers);
    LinedKept(s.queue, s.front, s.wakers, w, r.queue, r.front, r.wakers);
    CallsSame(s.calls, s.wakers, w, r.wakers);
    WatchedKept(s.places.slots, s.wakers, s.tasks, s.calls, s.pc, w, r.wakers, r.calls, r.pc);
    PromiseKept(s.awaiter, s.pc, s.places.slots, s.wakers, s.calls, w, r.wakers, r.calls);
    PromisePc(s.awaiter, s.pc, s.places.slots, r.wakers, s.calls, r.pc);
  }

  lemma ClearTokens(s: State)
    requires Inv(s) && s.pc.Clearing? && s.pc.w in s.wakers
    ensures var r := DoClear(s); Tokens(r.places.slots, r.wakers, r.queue, r.front, r.calls, r.pc)
  {
    hide Freed, Watched, Fates, Flagged, Promise, Wired, Lined, Calls;
    var r := DoClear(s);
    TokensKept(s.places.slots, s.wakers, s.queue, s.front, s.calls, s.pc, s.pc.w,
               r.places.slots, r.wakers, r.queue, r.front, r.calls, r.pc);
  }

  // ----- the look at a popped waker's member

  /** No member behind the waker: the slot was dropped, or is empty. */
  lemma SkipKeeps(s: State)
    requires Inv(s) && s.pc.Polling?
    requires !Live(s.places.slots, s.wakers, s.pc.w) || s.places.slots[s.wakers[s.pc.w].slot].member.None?
    ensures Inv(s.(pc := Popping(s.pc.left)))
  {
    hide Freed, Lined, Calls, Fates, Flagged, Promise, Heard, Tokens;
    var pc := Popping(s.pc.left);
    PcTokens(s.places.slots, s.wakers, s.queue, s.front, s.calls, s.pc, pc);
    PromisePc(s.awaiter, s.pc, s.places.slots, s.wakers, s.calls, pc);
    var slots := s.places.slots;
    forall i | 0 <= i < |slots| && slots[i].member.Some? && slots[i].wake in s.wakers
      && slots[i].member.value in s.tasks
      ensures WatchedAt(slots[i].wake, s.wakers[slots[i].wake].queued, s.tasks[slots[i].member.value], s.calls, pc)
    {
      assert WatchedAt(slots[i].wake, s.wakers[slots[i].wake].queued, s.tasks[slots[i].member.value], s.calls, s.pc);
    }
  }

  /** The look of a member of a live slot. */
  ghost predicate LooksAt(s: State, slot: nat, k: TaskId) {
    && s.pc.Polling? && Live(s.places.slots, s.wakers, s.pc.w) && slot == s.wakers[s.pc.w].slot
    && s.places.slots[slot].member == Some(k) && k in s.tasks
  }

  /** The unfinished member keeps the slot's waker. */
  lemma ListenKeeps(s: State, slot: nat, k: TaskId)
    requires Inv(s) && LooksAt(s, slot, k) && s.tasks[k].outcome.None?
    ensures Inv(s.(pc := Popping(s.pc.left), tasks := s.tasks[k := s.tasks[k].(waker := Some(s.pc.w))]))
  {
    hide Freed, Lined, Calls, Flagged, Promise, Tokens, Fates;
    var r := s.(pc := Popping(s.pc.left), tasks := s.tasks[k := s.tasks[k].(waker := Some(s.pc.w))]);
    FinishFates(s.places.slots, s.tasks, s.joined, k, r.tasks[k]);
    PcTokens(s.places.slots, s.wakers, s.queue, s.front, s.calls, s.pc, r.pc);
    PromisePc(s.awaiter, s.pc, s.places.slots, s.wakers, s.calls, r.pc);
    SeatedOnce(s, slot, k);
    var slots := s.places.slots;
    forall i | 0 <= i < |slots| && slots[i].member.Some? && slots[i].wake in r.wakers
      && slots[i].member.value in r.tasks
      ensures WatchedAt(slots[i].wake, r.wakers[slots[i].wake].queued, r.tasks[slots[i].member.value], r.calls, r.pc)
    {
      assert WatchedAt(slots[i].wake, s.wakers[slots[i].wake].queued, s.tasks[slots[i].member.value], s.calls, s.pc);
    }
  }

  /** A task is in one slot at most, and no other slot has that slot's waker. */
  lemma SeatedOnce(s: State, slot: nat, k: TaskId)
    requires Inv(s) && slot < |s.places.slots| && s.places.slots[slot].member == Some(k)
    ensures forall i | 0 <= i < |s.places.slots| && s.places.slots[i].member == Some(k) :: i == slot
    ensures forall i | 0 <= i < |s.places.slots| && s.places.slots[i].wake == s.places.slots[slot].wake :: i == slot
  {
    hide Freed, Lined, Calls, Flagged, Promise, Tokens, Watched, Heard;
  }

  /** A finished member met with a spent budget: it wakes the slot's waker again. */
  lemma RefuseKeeps(s: State, slot: nat, k: TaskId, c: CallId)
    requires Inv(s) && LooksAt(s, slot, k) && c !in s.calls
    ensures Inv(s.(pc := Popping(s.pc.left), calls := s.calls[c := Flagging(s.pc.w)]))
  {
    hide Freed, Lined, Calls, Flagged, Promise, Tokens, Fates, Watched, Wired, Heard;
    var on := s.(calls := s.calls[c := Flagging(s.pc.w)]);
    RingKeeps(s, c, s.pc.w);
    var pc := Popping(s.pc.left);
    PcTokens(on.places.slots, on.wakers, on.queue, on.front, on.calls, on.pc, pc);
    PromisePc(on.awaiter, on.pc, on.places.slots, on.wakers, on.calls, pc);
    RefuseWatched(on, c);
  }

  lemma RefuseWatched(s: State, c: CallId)
    requires Inv(s) && s.pc.Polling? && c in s.calls && s.calls[c] == Flagging(s.pc.w)
    ensures Watched(s.places.slots, s.wakers, s.tasks, s.calls, Popping(s.pc.left))
  {
    hide Freed, Lined, Calls, Promise, Tokens, Fates, Wired, Heard;
    var slots := s.places.slots;
    forall i | 0 <= i < |slots| && slots[i].member.Some? && slots[i].wake in s.wakers
      && slots[i].member.value in s.tasks
      ensures WatchedAt(slots[i].wake, s.wakers[slots[i].wake].queued, s.tasks[slots[i].member.value], s.calls,
              Popping(s.pc.left))
    {
      assert WatchedAt(slots[i].wake, s.wakers[slots[i].wake].queued, s.tasks[slots[i].member.value], s.calls, s.pc);
    }
  }

  // ----- a member leaves its slot

  function One(slot: Slot): nat {
    if slot.member.Some? then 1 else 0
  }

  lemma {:induction false} CountSet(slots: seq<Slot>, i: nat, slot: Slot)
    requires i < |slots|
    ensures Count(slots[i := slot]) + One(slots[i]) == Count(slots) + One(slot)
  {
    var n := |slots| - 1;
    if i == n {
      assert slots[i := slot][..n] == slots[..n];
    } else {
      CountSet(slots[..n], i, slot);
      assert slots[i := slot][..n] == slots[..n][i := slot];
    }
  }

  lemma JoinFreed(p: Places, slot: nat, w: WakerId)
    requires Freed(p) && slot < |p.slots| && p.slots[slot].member.Some?
    ensures p.len > 0 && Freed(Places(p.slots[slot := Slot(w, None)], p.free + [slot], p.len - 1))
  {
    CountSet(p.slots, slot, Slot(w, None));
    var more := p.free + [slot];
    forall i | 0 <= i < |p.slots| && p.slots[slot := Slot(w, None)][i].member.None? ensures i in more {
      assert i == slot ==> more[|p.free|] == slot;
      assert i != slot ==> i in p.free;
    }
  }

  lemma JoinFates(slots: seq<Slot>, tasks: map<TaskId, Task>, joined: seq<(TaskId, Outcome)>, slot: nat, w: WakerId,
                  k: TaskId)
    requires Fates(slots, tasks, joined) && slot < |slots| && slots[slot].member == Some(k) && k in tasks
             && tasks[k].outcome.Some?
    ensures Fates(slots[slot := Slot(w, None)], tasks[k := tasks[k].(fate := Joined(|joined|))],
                  joined + [(k, tasks[k].outcome.value)])
  {
    var t := tasks[k].(fate := Joined(|joined|));
    var list := joined + [(k, t.outcome.value)];
    forall m | m in tasks ensures FateOk(slots[slot := Slot(w, None)], list, m, tasks[k := t][m]) {
      assert FateOk(slots, joined, m, tasks[m]);
    }
  }

  lemma JoinKeeps(s: State, slot: nat, k: TaskId)
    requires Inv(s) && LooksAt(s, slot, k) && s.tasks[k].outcome.Some? && Shaped(s)
    ensures Inv(DoPollMember(s, false, 0))
  {
    hide Freed, Lined, Calls, Flagged, Fates, Tokens, Watched;
    var r := DoPollMember(s, false, 0);
    JoinFreed(s.places, slot, s.pc.w);
    JoinFates(s.places.slots, s.tasks, s.joined, slot, s.pc.w, k);
    JoinTokens(s, slot, r.places.slots);
    JoinWatched(s, slot, k, r);
  }

  lemma JoinTokens(s: State, slot: nat, slots: seq<Slot>)
    requires Inv(s) && s.pc.Polling? && Live(s.places.slots, s.wakers, s.pc.w) && slot == s.wakers[s.pc.w].slot
    requires slots == s.places.slots[slot := Slot(s.pc.w, None)]
    ensures Tokens(slots, s.wakers, s.queue, s.front, s.calls, Idle)
  {
    hide Freed, Lined, Calls, Flagged, Fates, Watched, Wired, Heard, Promise;
    forall w | w in s.wakers ensures TokenOk(slots, s.wakers, s.queue, s.front, s.calls, Idle, w) {
      assert TokenOk(s.places.slots, s.wakers, s.queue, s.front, s.calls, s.pc, w);
    }
  }

  lemma JoinWatched(s: State, slot: nat, k: TaskId, r: State)
    requires Inv(s) && LooksAt(s, slot, k)
    requires r.places.slots == s.places.slots[slot := Slot(s.pc.w, None)] && r.wakers == s.wakers && r.calls == s.calls
    requires k in r.tasks && r.tasks == s.tasks[k := r.tasks[k]] && r.pc.Idle?
    ensures Watched(r.places.slots, r.wakers, r.tasks, r.calls, r.pc)
  {
    hide Freed, Lined, Calls, Flagged, Fates, Tokens, Heard, Promise;
    SeatedOnce(s, slot, k);
    var slots := r.places.slots;
    forall i | 0 <= i < |slots| && slots[i].member.Some? && slots[i].wake in r.wakers
      && slots[i].member.value in r.tasks
      ensures WatchedAt(slots[i].wake, r.wakers[slots[i].wake].queued, r.tasks[slots[i].member.value], r.calls, r.pc)
    {
      assert WatchedAt(slots[i].wake, s.wakers[slots[i].wake].queued, s.tasks[slots[i].member.value], s.calls, s.pc);
    }
  }

  lemma PollMemberKeeps(s: State, refused: bool, c: CallId)
    requires Inv(s) && Shaped(s) && s.pc.Polling? && c !in s.calls
    ensures Inv(DoPollMember(s, refused, c))
  {
    hide Inv;
    var w := s.pc.w;
    if !Live(s.places.slots, s.wakers, w) || s.places.slots[s.wakers[w].slot].member.None? {
      SkipKeeps(s);
    } else {
      var slot := s.wakers[w].slot;
      var k := s.places.slots[slot].member.value;
      if s.tasks[k].outcome.None? {
        ListenKeeps(s, slot, k);
      } else if refused {
        RefuseKeeps(s, slot, k, c);
      } else {
        JoinKeeps(s, slot, k);
        assert DoPollMember(s, refused, c) == DoPollMember(s, false, 0);
      }
    }
  }

  // ----- a task comes in

  /** A slot at the end, empty and free. */
  function NewSlot(s: State, w: WakerId): State {
    s.(places := Places(s.places.slots + [Slot(w, None)], s.places.free + [|s.places.slots|], s.places.len),
       wakers := s.wakers[w := SlotWake(|s.places.slots|, false, Away)])
  }

  lemma NewSlotFreed(p: Places, w: WakerId)
    requires Freed(p)
    ensures Freed(Places(p.slots + [Slot(w, None)], p.free + [|p.slots|], p.len))
  {
    var more := p.free + [|p.slots|];
    var slots := p.slots + [Slot(w, None)];
    assert slots[..|slots| - 1] == p.slots;
    forall i | 0 <= i < |slots| && slots[i].member.None? ensures i in more {
      assert i == |p.slots| ==> more[|p.free|] == i;
      assert i < |p.slots| ==> i in p.free;
    }
  }

  lemma NewSlotKeeps(s: State, w: WakerId)
    requires Inv(s) && w !in s.wakers && s.pc.Idle?
    ensures Inv(NewSlot(s, w))
  {
    hide Freed, Lined, Calls, Flagged, Fates, Tokens, Watched, Heard, Promise;
    var r := NewSlot(s, w);
    assert Same(s.wakers, w, r.wakers);
    NewSlotFreed(s.places, w);
    HeardKept(s.tasks, s.wakers, s.awaiter.seen, w, r.wakers);
    LinedKept(s.queue, s.front, s.wakers, w, s.queue, s.front, r.wakers);
    CallsSame(s.calls, s.wakers, w, r.wakers);
    NewSlotTokens(s, w);
    WatchedKept(s.places.slots, s.wakers, s.tasks, s.calls, s.pc, w, r.wakers, s.calls, s.pc);
    PromiseKept(s.awaiter, s.pc, s.places.slots, s.wakers, s.calls, w, r.wakers, s.calls);
    EmptySlot(s.places.slots, w, r.wakers, s.tasks, s.joined, s.calls, s.pc, s.awaiter);
  }

  lemma NewSlotTokens(s: State, w: WakerId)
    requires Inv(s) && w !in s.wakers && s.pc.Idle?
    ensures var r := NewSlot(s, w); Tokens(r.places.slots, r.wakers, r.queue, r.front, r.calls, r.pc)
  {
    hide Freed, Lined, Calls, Flagged, Fates, Watched, Heard, Promise;
    var r := NewSlot(s, w);
    TokensKept(s.places.slots, s.wakers, s.queue, s.front, s.calls, s.pc, w,
               r.places.slots, r.wakers, r.queue, r.front, r.calls, r.pc);
  }

  /** An empty slot more at the end changes nothing about members. */
  lemma EmptySlot(slots: seq<Slot>, w: WakerId, wakers: map<WakerId, SlotWake>, tasks: map<TaskId, Task>,
                  joined: seq<(TaskId, Outcome)>, calls: map<CallId, Wake>, pc: Pc, a: Awaiter)
    requires Fates(slots, tasks, joined) && Watched(slots, wakers, tasks, calls, pc)
             && Promise(a, pc, slots, wakers, calls)
    ensures var more := slots + [Slot(w, None)];
            Fates(more, tasks, joined) && Watched(more, wakers, tasks, calls, pc) && Promise(a, pc, more, wakers, calls)
  {
    var more := slots + [Slot(w, None)];
    assert forall k | k in tasks :: FateOk(slots, joined, k, tasks[k]) ==> FateOk(more, joined, k, tasks[k]);
    assert forall i | 0 <= i < |more| && more[i].member.Some? :: more[i] == slots[i];
  }

  /** The push of `insert`, for a slot still empty. */
  function PushSlot(s: State, w: WakerId): State
    requires w in s.wakers
  {
    s.(wakers := SetFlag(s.wakers, w, true, InQueue(|s.queue|)), queue := s.queue + [w])
  }

  lemma PushSlotKeeps(s: State, i: nat)
    requires Inv(s) && s.pc.Idle? && i < |s.places.slots| && s.places.slots[i].member.None?
    requires s.places.slots[i].wake in s.wakers && !s.wakers[s.places.slots[i].wake].queued
    ensures Inv(PushSlot(s, s.places.slots[i].wake))
  {
    hide Freed, Lined, Calls, Flagged, Fates, Watched, Heard;
    var w := s.places.slots[i].wake;
    var r := PushSlot(s, w);
    assert TokenOk(s.places.slots, s.wakers, s.queue, s.front, s.calls, s.pc, w);
    SetFlagSame(s.wakers, w, true, InQueue(|s.queue|));
    HeardKept(s.tasks, s.wakers, s.awaiter.seen, w, r.wakers);
    WiredKept(s.places.slots, s.wakers, w, r.wakers);
    LinedBound(s.queue, s.front, s.wakers);
    LinedKept(s.queue, s.front, s.wakers, w, r.queue, s.front, r.wakers);
    CallsSame(s.calls, s.wakers, w, r.wakers);
    TokensKept(s.places.slots, s.wakers, s.queue, s.front, s.calls, s.pc, w,
               s.places.slots, r.wakers, r.queue, s.front, s.calls, s.pc);
    WatchedKept(s.places.slots, s.wakers, s.tasks, s.calls, s.pc, w, r.wakers, s.calls, s.pc);
    PushPromise(s, i);
  }

  lemma LinedBound(queue: seq<WakerId>, front: nat, wakers: map<WakerId, SlotWake>)
    requires Lined(queue, front, wakers)
    ensures front <= |queue|
  {
  }

  lemma PushPromise(s: State, i: nat)
    requires Inv(s) && s.pc.Idle? && i < |s.places.slots| && s.places.slots[i].member.None?
    requires s.places.slots[i].wake in s.wakers
    ensures Promise(s.awaiter, s.pc, s.places.slots, PushSlot(s, s.places.slots[i].wake).wakers, s.calls)
  {
    hide Freed, Lined, Calls, Flagged, Fates, Watched, Heard, Tokens, PastClaim;
    var wakers := PushSlot(s, s.places.slots[i].wake).wakers;
    if NoneLined(s.places.slots, s.wakers, s.awaiter.seen) {
      assert NoneLined(s.places.slots, wakers, s.awaiter.seen);
    }
  }

  /** A new member in the last free slot, whose waker is queued. */
  function Seat(s: State, k: TaskId, done: Option<Outcome>): State
    requires s.places.free != [] && Last(s.places.free) < |s.places.slots|
  {
    var p := s.places;
    var slot := Last(p.free);
    s.(places := Places(p.slots[slot := Slot(p.slots[slot].wake, Some(k))], p.free[..|p.free| - 1], p.len + 1),
       tasks := s.tasks[k := Task(done, None, Member(slot))])
  }

  function Last(free: seq<nat>): nat
    requires free != []
  {
    free[|free| - 1]
  }

  lemma SeatFreed(p: Places, w: WakerId, k: TaskId)
    requires Freed(p) && p.free != []
    ensures Last(p.free) < |p.slots| && p.slots[Last(p.free)].member.None?
    ensures Freed(Places(p.slots[Last(p.free) := Slot(w, Some(k))], p.free[..|p.free| - 1], p.len + 1))
  {
    var slot := Last(p.free);
    CountSet(p.slots, slot, Slot(w, Some(k)));
    var slots := p.slots[slot := Slot(w, Some(k))];
    var less := p.free[..|p.free| - 1];
    forall i | 0 <= i < |slots| && slots[i].member.None? ensures i in less {
      assert i in p.free;
      var j :| 0 <= j < |p.free| && p.free[j] == i;
      assert less[j] == i;
    }
  }

  lemma SeatFates(slots: seq<Slot>, tasks: map<TaskId, Task>, joined: seq<(TaskId, Outcome)>, slot: nat, k: TaskId,
                  done: Option<Outcome>)
    requires Fates(slots, tasks, joined) && slot < |slots| && slots[slot].member.None? && k !in tasks
    ensures Fates(slots[slot := Slot(slots[slot].wake, Some(k))], tasks[k := Task(done, None, Member(slot))], joined)
  {
    var after := slots[slot := Slot(slots[slot].wake, Some(k))];
    forall m | m in tasks ensures FateOk(after, joined, m, tasks[m]) {
      assert FateOk(slots, joined, m, tasks[m]);
    }
  }

  lemma SeatKeeps(s: State, k: TaskId, done: Option<Outcome>)
    requires Inv(s) && s.pc.Idle? && s.places.free != [] && k !in s.tasks
    requires Last(s.places.free) < |s.places.slots|
    requires var w := s.places.slots[Last(s.places.free)].wake; w in s.wakers && s.wakers[w].queued
    ensures Inv(Seat(s, k, done))
  {
    hide Freed, Lined, Calls, Flagged, Fates, PastClaim, Tokens;
    var r := Seat(s, k, done);
    var slot := Last(s.places.free);
    SeatFreed(s.places, s.places.slots[slot].wake, k);
    SeatFates(s.places.slots, s.tasks, s.joined, slot, k, done);
    SeatTokens(s, slot, k);
    SeatWatched(s, slot, k, r);
  }

  lemma SeatTokens(s: State, slot: nat, k: TaskId)
    requires Inv(s) && slot < |s.places.slots|
    ensures Tokens(s.places.slots[slot := Slot(s.places.slots[slot].wake, Some(k))], s.wakers, s.queue, s.front,
            s.calls, s.pc)
  {
    hide Freed, Lined, Calls, Flagged, Fates, Watched, Wired, Heard, Promise;
    var slots := s.places.slots[slot := Slot(s.places.slots[slot].wake, Some(k))];
    forall w | w in s.wakers ensures TokenOk(slots, s.wakers, s.queue, s.front, s.calls, s.pc, w) {
      assert TokenOk(s.places.slots, s.wakers, s.queue, s.front, s.calls, s.pc, w);
    }
  }

  lemma SeatWatched(s: State, slot: nat, k: TaskId, r: State)
    requires Inv(s) && slot < |s.places.slots| && k !in s.tasks
    requires r.places.slots == s.places.slots[slot := Slot(s.places.slots[slot].wake, Some(k))]
    requires r.wakers == s.wakers && r.calls == s.calls && r.pc == s.pc
    requires k in r.tasks && r.tasks == s.tasks[k := r.tasks[k]] && r.tasks[k].waker.None?
    requires s.places.slots[slot].wake in s.wakers && s.wakers[s.places.slots[slot].wake].queued
    ensures Watched(r.places.slots, r.wakers, r.tasks, r.calls, r.pc)
  {
    hide Freed, Lined, Calls, Flagged, Tokens, Heard, Promise;
    var slots := r.places.slots;
    forall i | 0 <= i < |slots| && slots[i].member.Some? && slots[i].wake in r.wakers
      && slots[i].member.value in r.tasks
      ensures WatchedAt(slots[i].wake, r.wakers[slots[i].wake].queued, r.tasks[slots[i].member.value], r.calls, r.pc)
    {
      if i != slot {
        assert WatchedAt(slots[i].wake, s.wakers[slots[i].wake].queued, s.tasks[slots[i].member.value], s.calls, s.pc);
      }
    }
  }

  /** An insert that takes a slot off the free list. */
  function Fill(s: State, k: TaskId, done: Option<Outcome>): State
    requires s.places.free != [] && Last(s.places.free) < |s.places.slots|
    requires s.places.slots[Last(s.places.free)].wake in s.wakers
  {
    var w := s.places.slots[Last(s.places.free)].wake;
    Seat(if s.wakers[w].queued then s else PushSlot(s, w), k, done)
  }

  lemma FillKeeps(s: State, k: TaskId, done: Option<Outcome>)
    requires Inv(s) && s.pc.Idle? && s.places.free != [] && k !in s.tasks
    requires Last(s.places.free) < |s.places.slots| && s.places.slots[Last(s.places.free)].member.None?
    requires s.places.slots[Last(s.places.free)].wake in s.wakers
    ensures Inv(Fill(s, k, done))
  {
    hide Inv;
    var w := s.places.slots[Last(s.places.free)].wake;
    if s.wakers[w].queued {
      SeatKeeps(s, k, done);
    } else {
      PushSlotKeeps(s, Last(s.places.free));
      SeatKeeps(PushSlot(s, w), k, done);
    }
  }

  lemma InsertReuses(s: State, k: TaskId, w: WakerId, done: Option<Outcome>)
    requires Shaped(s) && s.places.free != []
    ensures Last(s.places.free) < |s.places.slots| && DoInsert(s, k, w, done) == Fill(s, k, done)
  {
  }

  lemma InsertGrows(s: State, k: TaskId, w: WakerId, done: Option<Outcome>)
    requires Shaped(s) && s.places.free == [] && w !in s.wakers
    ensures DoInsert(s, k, w, done) == Fill(NewSlot(s, w), k, done)
  {
    var on := NewSlot(s, w);
    assert on.places.free == [|s.places.slots|] && on.places.free[..0] == [];
  }

  lemma InsertKeeps(s: State, k: TaskId, w: WakerId, done: Option<Outcome>)
    requires Inv(s) && Shaped(s) && s.pc.Idle? && k !in s.tasks && w !in s.wakers
    ensures Inv(DoInsert(s, k, w, done))
  {
    SeatPre(s);
    hide Inv, DoInsert, Fill;
    if s.places.free != [] {
      InsertReuses(s, k, w, done);
      FillKeeps(s, k, done);
    } else {
      InsertGrows(s, k, w, done);
      NewSlotKeeps(s, w);
      FillKeeps(NewSlot(s, w), k, done);
    }
  }

  lemma SeatPre(s: State)
    requires Inv(s)
    ensures s.places.free != []
            ==> Last(s.places.free) < |s.places.slots| && s.places.slots[Last(s.places.free)].member.None?
  {
    hide Lined, Calls, Flagged, Fates, Watched, Wired, Heard, Promise, Tokens;
  }

  // ----- the set lets its tasks go

  lemma DetachKeeps(s: State)
    requires Inv(s) && s.pc.Idle?
    ensures Inv(DoDetach(s))
  {
    hide Lined, Calls, Flagged;
    var r := DoDetach(s);
    forall w | w in r.wakers ensures TokenOk(r.places.slots, r.wakers, r.queue, r.front, r.calls, r.pc, w) {
      assert TokenOk(s.places.slots, s.wakers, s.queue, s.front, s.calls, s.pc, w);
    }
    forall k | k in r.tasks ensures FateOk(r.places.slots, r.joined, k, r.tasks[k]) {
      assert FateOk(s.places.slots, s.joined, k, s.tasks[k]);
    }
  }

  lemma DrainItemKeeps(s: State)
    requires Inv(s) && s.pc.Draining? && s.front < |s.queue| && s.queue[s.front] in s.wakers
    ensures Inv(DoDrainPop(s, Item))
  {
    hide Freed, Calls, Watched, Fates, Flagged, Promise, Wired, Heard;
    var w := s.queue[s.front];
    var r := DoDrainPop(s, Item);
    assert Is(s.wakers, w, InQueue(s.front));
    SetFlagSame(s.wakers, w, s.wakers[w].queued, Away);
    HeardKept(s.tasks, s.wakers, s.awaiter.seen, w, r.wakers);
    WiredKept(s.places.slots, s.wakers, w, r.wakers);
    LinedKept(s.queue, s.front, s.wakers, w, r.queue, r.front, r.wakers);
    CallsSame(s.calls, s.wakers, w, r.wakers);
    TokensKept(s.places.slots, s.wakers, s.queue, s.front, s.calls, s.pc, w,
               s.places.slots, r.wakers, r.queue, r.front, s.calls, s.pc);
    WatchedKept(s.places.slots, s.wakers, s.tasks, s.calls, s.pc, w, r.wakers, s.calls, s.pc);
    PromiseKept(s.awaiter, s.pc, s.places.slots, s.wakers, s.calls, w, r.wakers, s.calls);
  }

  lemma DrainEndKeeps(s: State)
    requires Inv(s) && s.pc.Draining?
    ensures Inv(s.(pc := Idle))
  {
    hide Freed, Calls, Watched, Fates, Flagged, Wired, Heard, Tokens, Lined;
    PcTokens(s.places.slots, s.wakers, s.queue, s.front, s.calls, s.pc, Idle);
    PcWatched(s.places.slots, s.wakers, s.tasks, s.calls, s.pc, Idle);
  }

  // ----- every step

  lemma InvShaped(s: State)
    requires Inv(s)
    ensures Shaped(s)
  {
    hide Calls, Watched, Flagged, Promise, Heard, Tokens, Lined;
  }

  lemma PopKeeps(s: State, answer: Answer)
    requires Inv(s) && s.pc.Popping? && s.pc.left > 0 && CanAnswer(s, answer)
    ensures Inv(DoPop(s, answer))
  {
    hide Inv;
    match answer
    case Item => PopItemKeeps(s);
    case Empty => PendingKeeps(s, s.awaiter.woken);
    case Busy => PendingKeeps(s, s.awaiter.woken);
  }

  lemma DrainPopKeeps(s: State, answer: Answer)
    requires Inv(s) && s.pc.Draining? && CanAnswer(s, answer)
    ensures Inv(DoDrainPop(s, answer))
  {
    hide Inv;
    match answer
    case Item => DrainItemKeeps(s);
    case Empty => DrainEndKeeps(s);
    case Busy =>
  }

  /** Every step of the set and of every wake keeps the whole invariant. */
  lemma StepKeeps(s: State, a: Action)
    requires Inv(s) && Enabled(s, a)
    ensures Inv(Apply(s, a))
  {
    hide Inv, Shaped, DoInsert, DoPollStart, DoPop, Pending, DoClear, DoPollMember, DoDetach, DoDrainPop, DoFinish,
         DoFlag, DoClaim, DoTell, CanAnswer;
    match a
    case Insert(k, w, done) => InsertKeeps(s, k, w, done);
    case PollStart(raced) => PollStartKeeps(s, raced);
    case Pop(answer) => PopKeeps(s, answer);
    case GiveUp => PendingKeeps(s, true);
    case Clear => ClearKeeps(s);
    case PollMember(refused, c) => PollMemberKeeps(s, refused, c);
    case Detach => DetachKeeps(s);
    case DrainPop(answer) => DrainPopKeeps(s, answer);
    case Finish(k, outcome, c) => FinishKeeps(s, k, outcome, c);
    case Ring(c, w) => RingKeeps(s, c, w);
    case Flag(c) => FlagKeeps(s, c);
    case Claim(c) => ClaimKeeps(s, c);
    case Link(c) => LinkKeeps(s, c);
    case Tell(c) => TellKeeps(s, c);
  }
}
