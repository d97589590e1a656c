/** `JoinSet` (src/join_set.rs) as a machine of atomic steps: the set, used by one thread at a time,
    and any number of wakes of its slots' wakers arriving from other threads, stale ones included.

    The ready queue is the inbox as `InboxProofs` shows it: a push claims its place, then links it;
    a pop answers the first item once it is linked, Empty when nothing is claimed, and Busy only
    while some push is between the two. The awaiter's cell is as `AtomicWaker` shows it: a registration
    that meets a wake wakes its own waker, and otherwise the next wake takes the one registered. A task's
    `join` is taken by its contract: polled before the
    task finished it keeps the waker it was given, and the finish wakes it; a finished task's `join`
    answers, unless the caller's budget is spent, when it wakes the waker it was given instead. */
module JoinSet {
  import opened Prelude

  type WakerId = nat
  type TaskId = nat
  type CallId = nat
  type Outcome = nat

  /** Where a slot's waker is (history only): in the queue, claimed by a wake that has not pushed it
      yet, popped and not cleared yet, or none of these. */
  datatype Token = Away | InQueue(i: nat) | InCall(c: CallId) | InSet

  datatype SlotWake = SlotWake(slot: nat, queued: bool, token: Token)

  datatype Slot = Slot(wake: WakerId, member: Option<TaskId>)

  /** What became of a task given to the set (history only). */
  datatype Fate = Member(slot: nat) | Joined(j: nat) | Detached

  datatype Task = Task(outcome: Option<Outcome>, waker: Option<WakerId>, fate: Fate)

  /** A call of a slot's waker, step by step. */
  datatype Wake = Flagging(w: WakerId) | Claiming(w: WakerId) | Linking(w: WakerId) | Telling(w: WakerId)

  /** Where the set's own thread is: in no call, in `poll_join_next` with so many looks left, or in
      the drain of `detach_all`. */
  datatype Pc =
    | Idle
    | Popping(left: nat)
    | Clearing(w: WakerId, left: nat)
    | Polling(w: WakerId, left: nat)
    | Draining

  /** The slots and the free list. */
  datatype Places = Places(slots: seq<Slot>, free: seq<nat>, len: nat)

  /** The awaiter's cell. `pending`, whether the last poll answered Pending, and `seen`, the members
      it found, are history. */
  datatype Awaiter = Awaiter(registered: bool, woken: bool, pending: bool, seen: set<TaskId>)

  datatype State = State(
    places: Places,
    wakers: map<WakerId, SlotWake>,
    queue: seq<WakerId>,
    front: nat,
    calls: map<CallId, Wake>,
    tasks: map<TaskId, Task>,
    joined: seq<(TaskId, Outcome)>,
    awaiter: Awaiter,
    pc: Pc)

  datatype Answer = Item | Empty | Busy

  datatype Action =
    // the set's thread
    | Insert(k: TaskId, w: WakerId, done: Option<Outcome>)
    | PollStart(raced: bool)
    | Pop(answer: Answer)
    | GiveUp
    | Clear
    | PollMember(refused: bool, c: CallId)
    | Detach
    | DrainPop(answer: Answer)
    // any thread
    | Finish(k: TaskId, outcome: Outcome, c: CallId)
    | Ring(c: CallId, w: WakerId)
    | Flag(c: CallId)
    | Claim(c: CallId)
    | Link(c: CallId)
    | Tell(c: CallId)

  function Init(): State {
    State(Places([], [], 0), map[], [], 0, map[], map[], [], Awaiter(false, false, false, {}), Idle)
  }

  function Members(slots: seq<Slot>): set<TaskId> {
    set i | 0 <= i < |slots| && slots[i].member.Some? :: slots[i].member.value
  }

  function SetFlag(wakers: map<WakerId, SlotWake>, w: WakerId, queued: bool, token: Token): map<WakerId, SlotWake>
    requires w in wakers
  {
    wakers[w := wakers[w].(queued := queued, token := token)]
  }

  /** Free indices are slots, slots have wakers, members are tasks. */
  predicate Shaped(s: State) {
    && (forall j | 0 <= j < |s.places.free| :: s.places.free[j] < |s.places.slots|)
    && (forall i | 0 <= i < |s.places.slots| :: s.places.slots[i].wake in s.wakers)
    && (forall i | 0 <= i < |s.places.slots| ::
          s.places.slots[i].member.Some? ==> s.places.slots[i].member.value in s.tasks)
  }

  // ----- the set's own steps

  /** The place a new member takes: the last free one, or a new slot at the end. */
  function Place(p: Places, w: WakerId): (nat, Places) {
    if p.free != [] then (p.free[|p.free| - 1], p.(free := p.free[..|p.free| - 1]))
    else (|p.slots|, p.(slots := p.slots + [Slot(w, None)]))
  }

  function DoInsert(s: State, k: TaskId, w: WakerId, done: Option<Outcome>): State
    requires Shaped(s)
  {
    var (slot, p) := Place(s.places, w);
    var wakers := if s.places.free != [] then s.wakers else s.wakers[w := SlotWake(slot, false, Away)];
    var own := p.slots[slot].wake;
    var fill := p.(slots := p.slots[slot := Slot(own, Some(k))], len := p.len + 1);
    var on := s.(places := fill, wakers := wakers, tasks := s.tasks[k := Task(done, None, Member(slot))]);
    if wakers[own].queued then on
    else on.(wakers := SetFlag(wakers, own, true, InQueue(|s.queue|)), queue := s.queue + [own])
  }

  /** A registration that meets a wake wakes its own waker instead. */
  function DoPollStart(s: State, raced: bool): State {
    if s.places.len == 0 then s.(awaiter := s.awaiter.(pending := false))
    else s.(awaiter := Awaiter(!raced, raced, false, {}), pc := Popping(s.places.len))
  }

  function Pending(s: State, woken: bool): State {
    s.(pc := Idle, awaiter := s.awaiter.(woken := woken, pending := true, seen := Members(s.places.slots)))
  }

  function DoPop(s: State, answer: Answer): State
    requires s.pc.Popping? && s.pc.left > 0
    requires answer.Item? ==> s.front < |s.queue| && s.queue[s.front] in s.wakers
  {
    if answer.Item? then
      var w := s.queue[s.front];
      s.(front := s.front + 1, wakers := SetFlag(s.wakers, w, s.wakers[w].queued, InSet),
         pc := Clearing(w, s.pc.left - 1))
    else Pending(s, s.awaiter.woken)
  }

  function DoClear(s: State): State
    requires s.pc.Clearing? && s.pc.w in s.wakers
  {
    s.(wakers := SetFlag(s.wakers, s.pc.w, false, Away), pc := Polling(s.pc.w, s.pc.left))
  }

  /** The waker is one of the set's slots' now, not one of a slot dropped by `detach_all`. */
  predicate Live(slots: seq<Slot>, wakers: map<WakerId, SlotWake>, w: WakerId) {
    w in wakers && wakers[w].slot < |slots| && slots[wakers[w].slot].wake == w
  }

  function DoPollMember(s: State, refused: bool, c: CallId): State
    requires s.pc.Polling? && Shaped(s)
  {
    var w := s.pc.w;
    var next := s.(pc := Popping(s.pc.left));
    if !Live(s.places.slots, s.wakers, w) then next
    else
      var slot := s.wakers[w].slot;
      if s.places.slots[slot].member.None? then next
      else
        var k := s.places.slots[slot].member.value;
        var t := s.tasks[k];
        if t.outcome.None? then next.(tasks := s.tasks[k := t.(waker := Some(w))])
        else if refused then next.(calls := s.calls[c := Flagging(w)])
        else
          s.(pc := Idle, awaiter := s.awaiter.(pending := false),
             places := Places(s.places.slots[slot := Slot(w, None)], s.places.free + [slot],
                              if s.places.len > 0 then s.places.len - 1 else 0),
             tasks := s.tasks[k := t.(fate := Joined(|s.joined|))],
             joined := s.joined + [(k, t.outcome.value)])
  }

  function DoDetach(s: State): State {
    s.(places := Places([], [], 0), pc := Draining, awaiter := s.awaiter.(pending := false),
       tasks := map k | k in s.tasks :: if s.tasks[k].fate.Member? then s.tasks[k].(fate := Detached) else s.tasks[k])
  }

  /** The drain drops what it pops: the flag of a dropped slot's waker stays up. */
  function DoDrainPop(s: State, answer: Answer): State
    requires answer.Item? ==> s.front < |s.queue| && s.queue[s.front] in s.wakers
  {
    match answer
    case Item =>
      var w := s.queue[s.front];
      s.(front := s.front + 1, wakers := SetFlag(s.wakers, w, s.wakers[w].queued, Away))
    case Empty => s.(pc := Idle)
    case Busy => s
  }

  // ----- wakes

  function DoFinish(s: State, k: TaskId, outcome: Outcome, c: CallId): State
    requires k in s.tasks
  {
    var t := s.tasks[k];
    s.(tasks := s.tasks[k := t.(outcome := Some(outcome), waker := None)],
       calls := if t.waker.Some? then s.calls[c := Flagging(t.waker.value)] else s.calls)
  }

  function DoFlag(s: State, c: CallId): State
    requires c in s.calls && s.calls[c].Flagging? && s.calls[c].w in s.wakers
  {
    var w := s.calls[c].w;
    if s.wakers[w].queued then s.(calls := s.calls - {c})
    else s.(wakers := SetFlag(s.wakers, w, true, InCall(c)), calls := s.calls[c := Claiming(w)])
  }

  function DoClaim(s: State, c: CallId): State
    requires c in s.calls && s.calls[c].Claiming? && s.calls[c].w in s.wakers
  {
    var w := s.calls[c].w;
    s.(queue := s.queue + [w], wakers := SetFlag(s.wakers, w, s.wakers[w].queued, InQueue(|s.queue|)),
       calls := s.calls[c := Linking(w)])
  }

  function DoTell(s: State, c: CallId): State {
    s.(calls := s.calls - {c},
       awaiter := if s.awaiter.registered then s.awaiter.(registered := false, woken := true) else s.awaiter)
  }

  // ----- the machine

  /** Some push is between its claim and its link. */
  ghost predicate PushUnderWay(calls: map<CallId, Wake>) {
    exists c :: c in calls && calls[c].Linking?
  }

  /** The first item's push has linked it. */
  ghost predicate FirstLinked(s: State) {
    s.front < |s.queue| && forall c | c in s.calls :: s.calls[c] != Linking(s.queue[s.front])
  }

  ghost predicate CanAnswer(s: State, a: Answer) {
    match a
    case Item => FirstLinked(s) && s.queue[s.front] in s.wakers
    case Empty => s.front == |s.queue|
    case Busy => PushUnderWay(s.calls)
  }

  ghost predicate Enabled(s: State, a: Action) {
    Shaped(s) &&
    match a
    case Insert(k, w, done) => s.pc.Idle? && k !in s.tasks && w !in s.wakers
    case PollStart(raced) => s.pc.Idle? && (raced ==> exists c :: c in s.calls && s.calls[c].Telling?)
    case Pop(answer) => s.pc.Popping? && s.pc.left > 0 && CanAnswer(s, answer)
    case GiveUp => s.pc.Popping? && s.pc.left == 0
    case Clear => s.pc.Clearing? && s.pc.w in s.wakers
    case PollMember(refused, c) => s.pc.Polling? && c !in s.calls
    case Detach => s.pc.Idle?
    case DrainPop(answer) => s.pc.Draining? && CanAnswer(s, answer)
    case Finish(k, _, c) => k in s.tasks && s.tasks[k].outcome.None? && c !in s.calls
    case Ring(c, w) => c !in s.calls && w in s.wakers
    case Flag(c) => c in s.calls && s.calls[c].Flagging? && s.calls[c].w in s.wakers
    case Claim(c) => c in s.calls && s.calls[c].Claiming? && s.calls[c].w in s.wakers
    case Link(c) => c in s.calls && s.calls[c].Linking?
    case Tell(c) => c in s.calls && s.calls[c].Telling?
  }

  ghost function Apply(s: State, a: Action): State
    requires Enabled(s, a)
  {
    match a
    case Insert(k, w, done) => DoInsert(s, k, w, done)
    case PollStart(raced) => DoPollStart(s, raced)
    case Pop(answer) => DoPop(s, answer)
    case GiveUp => Pending(s, true)
    case Clear => DoClear(s)
    case PollMember(refused, c) => DoPollMember(s, refused, c)
    case Detach => DoDetach(s)
    case DrainPop(answer) => DoDrainPop(s, answer)
    case Finish(k, outcome, c) => DoFinish(s, k, outcome, c)
    case Ring(c, w) => s.(calls := s.calls[c := Flagging(w)])
    case Flag(c) => DoFlag(s, c)
    case Claim(c) => DoClaim(s, c)
    case Link(c) => s.(calls := s.calls[c := Telling(s.calls[c].w)])
    case Tell(c) => DoTell(s, c)
  }
}
