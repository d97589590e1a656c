/** The cell a task's waker is registered in (src/sync/atomic_waker.rs), as a machine of atomic steps:
    any number of registrations and wakes over one state word and one slot.

    `registrant` and `taker` (who holds the slot) and `due` (the wakers some wake has met and nobody
    has called since) are history: no step reads them. */
module AtomicWaker {
  import opened Prelude

  type Tid = nat
  /** Wakers that would wake the same task are equal. */
  type Waker = nat

  /** Where a call of `register` is. */
  datatype Registration =
    | Trying(w: Waker)
    | Storing(w: Waker)
    | Releasing(w: Waker, displaced: Option<Waker>)
    | Emptying(w: Waker, displaced: Option<Waker>)
    | Opening(taken: Option<Waker>, displaced: Option<Waker>)
    | Calling(first: Option<Waker>, second: Option<Waker>)

  /** Where a call of `wake` is. */
  datatype Wake = Raising | Taking | Lowering(taken: Option<Waker>) | Ringing(w: Waker)

  datatype State = State(
    registering: bool,
    waking: bool,
    slot: Option<Waker>,
    regs: map<Tid, Registration>,
    wakes: map<Tid, Wake>,
    registrant: Option<Tid>,
    taker: Option<Tid>,
    due: set<Waker>)

  datatype Action =
    | Register(t: Tid, w: Waker) | Try(t: Tid) | Store(t: Tid) | Release(t: Tid) | Empty(t: Tid) | Open(t: Tid)
    | Call(t: Tid)
    | Wake(t: Tid) | Raise(t: Tid) | Take(t: Tid) | Lower(t: Tid) | Ring(t: Tid)

  function Init(): State {
    State(false, false, None, map[], map[], None, None, {})
  }

  function Just(w: Option<Waker>): set<Waker> {
    if w.Some? then {w.value} else {}
  }

  /** The wakers a registration has in hand. */
  function InHand(r: Registration): set<Waker> {
    match r
    case Trying(_) => {}
    case Storing(w) => {w}
    case Releasing(w, displaced) => {w} + Just(displaced)
    case Emptying(w, displaced) => {w} + Just(displaced)
    case Opening(taken, displaced) => Just(taken) + Just(displaced)
    case Calling(first, second) => Just(first) + Just(second)
  }

  /** The wakers a wake meets: the one registered, and those of a registration in progress. */
  function Met(s: State): set<Waker> {
    Just(s.slot)
    + if s.registrant.Some? && s.registrant.value in s.regs then InHand(s.regs[s.registrant.value]) else {}
  }

  // ----- a registration

  /** The first compare-and-swap; a cell in use has the caller's own waker called. */
  function DoTry(s: State, t: Tid): State
    requires t in s.regs && s.regs[t].Trying?
  {
    var w := s.regs[t].w;
    if s.registering || s.waking then s.(regs := s.regs[t := Calling(Some(w), None)])
    else s.(registering := true, registrant := Some(t), regs := s.regs[t := Storing(w)])
  }

  /** A waker that would wake the same task is kept as it is. */
  function DoStore(s: State, t: Tid): State
    requires t in s.regs && s.regs[t].Storing?
  {
    var w := s.regs[t].w;
    if s.slot == Some(w) then s.(regs := s.regs[t := Releasing(w, None)])
    else s.(slot := Some(w), regs := s.regs[t := Releasing(w, s.slot)])
  }

  /** The second compare-and-swap: it succeeds unless a wake has set its bit since the first. */
  function DoRelease(s: State, t: Tid): State
    requires t in s.regs && s.regs[t].Releasing?
  {
    if s.registering && !s.waking then s.(registering := false, registrant := None, regs := s.regs - {t})
    else s.(regs := s.regs[t := Emptying(s.regs[t].w, s.regs[t].displaced)])
  }

  function DoCall(s: State, t: Tid): State
    requires t in s.regs && s.regs[t].Calling?
  {
    var r := s.regs[t];
    if r.first.Some? then s.(regs := s.regs[t := Calling(None, r.second)], due := s.due - {r.first.value})
    else if r.second.Some? then s.(regs := s.regs - {t}, due := s.due - {r.second.value})
    else s.(regs := s.regs - {t})
  }

  // ----- a wake

  /** The flag goes up; the slot is this wake's only over a cell at rest. */
  function DoRaise(s: State, t: Tid): State {
    var on := s.(waking := true, due := s.due + Met(s));
    if s.registering || s.waking then on.(wakes := s.wakes - {t})
    else on.(taker := Some(t), wakes := s.wakes[t := Taking])
  }

  function DoLower(s: State, t: Tid): State
    requires t in s.wakes && s.wakes[t].Lowering?
  {
    var taken := s.wakes[t].taken;
    s.(waking := false, taker := None,
       wakes := if taken.Some? then s.wakes[t := Ringing(taken.value)] else s.wakes - {t})
  }

  // ----- the machine

  predicate Enabled(s: State, a: Action) {
    match a
    case Register(t, _) => t !in s.regs
    case Try(t) => t in s.regs && s.regs[t].Trying?
    case Store(t) => t in s.regs && s.regs[t].Storing?
    case Release(t) => t in s.regs && s.regs[t].Releasing?
    case Empty(t) => t in s.regs && s.regs[t].Emptying?
    case Open(t) => t in s.regs && s.regs[t].Opening?
    case Call(t) => t in s.regs && s.regs[t].Calling?
    case Wake(t) => t !in s.wakes
    case Raise(t) => t in s.wakes && s.wakes[t].Raising?
    case Take(t) => t in s.wakes && s.wakes[t].Taking?
    case Lower(t) => t in s.wakes && s.wakes[t].Lowering?
    case Ring(t) => t in s.wakes && s.wakes[t].Ringing?
  }

  function Apply(s: State, a: Action): State
    requires Enabled(s, a)
  {
    match a
    case Register(t, w) => s.(regs := s.regs[t := Trying(w)])
    case Try(t) => DoTry(s, t)
    case Store(t) => DoStore(s, t)
    case Release(t) => DoRelease(s, t)
    case Empty(t) => s.(slot := None, regs := s.regs[t := Opening(s.slot, s.regs[t].displaced)])
    case Open(t) =>
      s.(registering := false, waking := false, registrant := None,
         regs := s.regs[t := Calling(s.regs[t].taken, s.regs[t].displaced)])
    case Call(t) => DoCall(s, t)
    case Wake(t) => s.(wakes := s.wakes[t := Raising])
    case Raise(t) => DoRaise(s, t)
    case Take(t) => s.(slot := None, wakes := s.wakes[t := Lowering(s.slot)])
    case Lower(t) => DoLower(s, t)
    case Ring(t) => s.(wakes := s.wakes - {t}, due := s.due - {s.wakes[t].w})
  }

  ghost predicate Reaches(s: State, run: seq<Action>, r: State)
    decreases |run|
  {
    if run == [] then r == s
    else Enabled(s, run[0]) && Reaches(Apply(s, run[0]), run[1..], r)
  }

  ghost predicate Reachable(r: State) {
    exists run: seq<Action> :: Reaches(Init(), run, r)
  }

  // ----- who holds the slot

  predicate Holds(r: Registration) {
    r.Storing? || r.Releasing? || r.Emptying? || r.Opening?
  }

  predicate HoldsWake(w: Wake) {
    w.Taking? || w.Lowering?
  }

  /** The word says who holds the slot: one registration, or else one wake, or else nobody. */
  ghost predicate Held(s: State) {
    && (s.registering <==> s.registrant.Some?)
    && (forall t | t in s.regs && Holds(s.regs[t]) :: s.registrant == Some(t))
    && (s.registrant.Some? ==> s.registrant.value in s.regs && Holds(s.regs[s.registrant.value]))
    && (forall t | t in s.wakes && HoldsWake(s.wakes[t]) :: s.taker == Some(t))
    && (s.taker.Some? ==> s.taker.value in s.wakes && HoldsWake(s.wakes[s.taker.value]))
    && (s.taker.Some? ==> s.waking && !s.registering)
    && (s.waking && !s.registering ==> s.taker.Some?)
  }

  /** What the holder's place says of the slot and the word. */
  ghost predicate Stage(s: State) {
    && (s.registrant.Some? && s.registrant.value in s.regs ==>
          var r := s.regs[s.registrant.value];
          && (r.Emptying? || r.Opening? ==> s.waking)
          && (r.Releasing? || r.Emptying? ==> s.slot == Some(r.w))
          && (r.Opening? ==> s.slot == None))
    && (s.taker.Some? && s.taker.value in s.wakes && s.wakes[s.taker.value].Lowering? ==> s.slot == None)
  }

  /** Somebody has `w` in hand to call it. */
  ghost predicate Called(s: State, w: Waker) {
    || (exists t :: t in s.regs && s.regs[t].Calling? && w in InHand(s.regs[t]))
    || (exists t :: t in s.wakes && s.wakes[t] == Ringing(w))
    || (exists t :: t in s.wakes && s.wakes[t] == Lowering(Some(w)))
  }

  /** A waker a wake met will be called: by someone with it in hand, or by the slot's holder, whom the
      flag tells. */
  ghost predicate Covered(s: State, w: Waker) {
    Called(s, w) || (s.waking && w in Met(s))
  }

  ghost predicate Inv(s: State) {
    Held(s) && Stage(s) && forall w | w in s.due :: Covered(s, w)
  }

  predicate OfRegistration(a: Action) {
    a.Register? || a.Try? || a.Store? || a.Release? || a.Empty? || a.Open? || a.Call?
  }

  lemma HeldByRegistration(s: State, a: Action)
    requires Held(s) && Stage(s) && Enabled(s, a) && OfRegistration(a)
    ensures Held(Apply(s, a)) && Stage(Apply(s, a))
  {
  }

  lemma HeldByWake(s: State, a: Action)
    requires Held(s) && Stage(s) && Enabled(s, a) && !OfRegistration(a)
    ensures Held(Apply(s, a)) && Stage(Apply(s, a))
  {
    hide Met;
  }

  lemma HeldKept(s: State, a: Action)
    requires Inv(s) && Enabled(s, a)
    ensures Held(Apply(s, a)) && Stage(Apply(s, a))
  {
    hide Held, Stage, Apply, Enabled;
    if OfRegistration(a) {
      HeldByRegistration(s, a);
    } else {
      HeldByWake(s, a);
    }
  }

  /** A waker in a registration's hand stays there until it is called. */
  lemma CallingKept(s: State, a: Action, w: Waker, t: Tid)
    requires Enabled(s, a) && w in Apply(s, a).due && t in s.regs && s.regs[t].Calling? && w in InHand(s.regs[t])
    ensures var r := Apply(s, a); t in r.regs && r.regs[t].Calling? && w in InHand(r.regs[t])
  {
    hide Met;
  }

  /** A waker in a wake's hand stays there until it is called. */
  lemma RingingKept(s: State, a: Action, w: Waker, t: Tid)
    requires Enabled(s, a) && w in Apply(s, a).due && t in s.wakes
    requires s.wakes[t] == Ringing(w) || s.wakes[t] == Lowering(Some(w))
    ensures var r := Apply(s, a); t in r.wakes && (r.wakes[t] == Ringing(w) || r.wakes[t] == Lowering(Some(w)))
  {
    hide Met, InHand;
  }

  /** A waker in hand stays in hand until it is called. */
  lemma CalledKept(s: State, a: Action, w: Waker)
    requires Enabled(s, a) && Called(s, w) && w in Apply(s, a).due
    ensures Called(Apply(s, a), w)
  {
    hide Apply, Enabled, InHand;
    if t :| t in s.regs && s.regs[t].Calling? && w in InHand(s.regs[t]) {
      CallingKept(s, a, w, t);
    } else {
      var t :| t in s.wakes && (s.wakes[t] == Ringing(w) || s.wakes[t] == Lowering(Some(w)));
      RingingKept(s, a, w, t);
    }
  }

  /** A waker the holder was told of stays with the holder, or goes into someone's hand. */
  lemma MetByRegistrant(s: State, t: Tid, a: Action, w: Waker)
    requires Held(s) && Stage(s) && Enabled(s, a) && s.waking && s.registrant == Some(t) && w in Met(s)
    requires a == Store(t) || a == Release(t) || a == Empty(t) || a == Open(t)
    ensures Covered(Apply(s, a), w)
  {
    var r := Apply(s, a);
    if a.Open? {
      assert t in r.regs && r.regs[t].Calling? && w in InHand(r.regs[t]);
    }
  }

  lemma MetByTaker(s: State, t: Tid, a: Action, w: Waker)
    requires Held(s) && Stage(s) && Enabled(s, a) && s.taker == Some(t) && w in Met(s)
    requires a == Take(t) || a == Lower(t)
    ensures Covered(Apply(s, a), w)
  {
    if a.Take? {
      assert Apply(s, a).wakes[t] == Lowering(Some(w));
    }
  }

  lemma MetKept(s: State, a: Action, w: Waker)
    requires Held(s) && Stage(s) && Enabled(s, a) && w in Met(s) && (s.waking || a.Raise?)
    ensures Covered(Apply(s, a), w)
  {
    if a.Store? || a.Release? || a.Empty? || a.Open? {
      MetByRegistrant(s, a.t, a, w);
    } else if a.Take? || a.Lower? {
      MetByTaker(s, a.t, a, w);
    } else {
      assert Met(Apply(s, a)) == Met(s) && Apply(s, a).waking;
    }
  }

  lemma StepKeeps(s: State, a: Action)
    requires Inv(s) && Enabled(s, a)
    ensures Inv(Apply(s, a))
  {
    HeldKept(s, a);
    forall w | w in Apply(s, a).due ensures Covered(Apply(s, a), w) {
      if w in s.due && Called(s, w) {
        CalledKept(s, a, w);
      } else {
        assert w in Met(s) && (s.waking || a.Raise?);
        MetKept(s, a, w);
      }
    }
  }

  lemma {:induction false} RunKeeps(s: State, run: seq<Action>, r: State)
    requires Inv(s) && Reaches(s, run, r)
    ensures Inv(r)
    decreases |run|
  {
    hide Inv, Apply, Enabled;
    if run != [] {
      StepKeeps(s, run[0]);
      RunKeeps(Apply(s, run[0]), run[1..], r);
    }
  }

  lemma ReachableInv(r: State)
    requires Reachable(r)
    ensures Inv(r)
  {
    var run: seq<Action> :| Reaches(Init(), run, r);
    RunKeeps(Init(), run, r);
  }

  // ----- what it gives

  /** The slot is one thread's at a time. */
  lemma Exclusive(r: State)
    requires Reachable(r)
    ensures forall t, u | t in r.regs && u in r.regs && Holds(r.regs[t]) && Holds(r.regs[u]) :: t == u
    ensures forall t, u | t in r.wakes && u in r.wakes && HoldsWake(r.wakes[t]) && HoldsWake(r.wakes[u]) :: t == u
    ensures forall t, u | t in r.regs && u in r.wakes :: !(Holds(r.regs[t]) && HoldsWake(r.wakes[u]))
  {
    ReachableInv(r);
  }

  /** Every waker that was registered, or being registered, when some wake came has been called once no
      call is in progress, whoever it fell to; and the cell is at rest. */
  lemma NoLostWake(r: State)
    requires Reachable(r) && r.regs == map[] && r.wakes == map[]
    ensures r.due == {} && !r.registering && !r.waking
  {
    ReachableInv(r);
    assert forall w | w in r.due :: Covered(r, w);
  }

  /** A registration that ends with its waker kept has it in the slot; one that meets a wake takes its
      own waker out to call it. */
  lemma KeptOrCalled(s: State, t: Tid)
    requires Reachable(s) && t in s.regs && (s.regs[t].Releasing? || s.regs[t].Emptying?)
    ensures s.slot == Some(s.regs[t].w)
    ensures s.regs[t].Releasing? && !s.waking ==>
              t !in Apply(s, Release(t)).regs && Apply(s, Release(t)).slot == Some(s.regs[t].w)
    ensures s.regs[t].Emptying? ==>
              Apply(s, Empty(t)).regs[t] == Opening(Some(s.regs[t].w), s.regs[t].displaced)
  {
    ReachableInv(s);
    assert Holds(s.regs[t]);
  }

  // ----- progress

  /** Steps a registration has left at most. */
  function RegistrationLeft(s: State, t: Tid): nat {
    if t !in s.regs then 0
    else
      match s.regs[t]
      case Trying(_) => 7
      case Storing(_) => 6
      case Releasing(_, _) => 5
      case Emptying(_, _) => 4
      case Opening(_, _) => 3
      case Calling(first, _) => if first.Some? then 2 else 1
  }

  function WakeLeft(s: State, t: Tid): nat {
    if t !in s.wakes then 0
    else
      match s.wakes[t]
      case Raising => 4
      case Taking => 3
      case Lowering(_) => 2
      case Ringing(_) => 1
  }

  predicate RegistrationStep(a: Action, t: Tid) {
    (a.Try? || a.Store? || a.Release? || a.Empty? || a.Open? || a.Call?) && a.t == t
  }

  predicate WakeStep(a: Action, t: Tid) {
    (a.Raise? || a.Take? || a.Lower? || a.Ring?) && a.t == t
  }

  /** Thread `t` begins no other call. */
  predicate NoneBegun(run: seq<Action>, t: Tid) {
    forall j | 0 <= j < |run| :: !((run[j].Register? || run[j].Wake?) && run[j].t == t)
  }

  function RegistrationSteps(run: seq<Action>, t: Tid): nat {
    if run == [] then 0 else Bit(RegistrationStep(run[0], t)) + RegistrationSteps(run[1..], t)
  }

  function WakeSteps(run: seq<Action>, t: Tid): nat {
    if run == [] then 0 else Bit(WakeStep(run[0], t)) + WakeSteps(run[1..], t)
  }

  lemma StepLeft(s: State, a: Action, t: Tid)
    requires Enabled(s, a)
    ensures !(a.Register? && a.t == t) ==>
              RegistrationLeft(Apply(s, a), t) + Bit(RegistrationStep(a, t)) <= RegistrationLeft(s, t)
    ensures !(a.Wake? && a.t == t) ==> WakeLeft(Apply(s, a), t) + Bit(WakeStep(a, t)) <= WakeLeft(s, t)
  {
    hide Met;
  }

  lemma {:induction false} StepsLeft(s: State, run: seq<Action>, r: State, t: Tid)
    requires Reaches(s, run, r) && NoneBegun(run, t)
    ensures RegistrationSteps(run, t) + RegistrationLeft(r, t) <= RegistrationLeft(s, t)
    ensures WakeSteps(run, t) + WakeLeft(r, t) <= WakeLeft(s, t)
    decreases |run|
  {
    hide Apply, Enabled, RegistrationLeft, WakeLeft;
    if run != [] {
      StepLeft(s, run[0], t);
      StepsLeft(Apply(s, run[0]), run[1..], r, t);
    }
  }

  /** Wait-free: whatever the others do, a registration ends within seven steps of its own and a wake
      within four. */
  lemma WaitFree(s: State, run: seq<Action>, r: State, t: Tid)
    requires Reaches(s, run, r) && NoneBegun(run, t)
    ensures RegistrationSteps(run, t) <= 7 && (RegistrationSteps(run, t) == 7 ==> t !in r.regs)
    ensures WakeSteps(run, t) <= 4 && (WakeSteps(run, t) == 4 ==> t !in r.wakes)
  {
    StepsLeft(s, run, r, t);
  }
}
