/** What holds in every state any run of the shared pool can reach. */
module SharedPoolRuns {
  import opened Prelude
  import opened SizeClasses
  import opened SharedPool
  import opened SharedPoolProofs

  /** A run of guarded steps: for every cap below the largest word, any run. */
  ghost predicate Reaches(s: State, run: seq<Action>, r: State)
    decreases |run|
  {
    if run == [] then r == s
    else Enabled(s, run[0]) && Guarded(s, run[0]) && Reaches(Apply(s, run[0]), run[1..], r)
  }

  /** A state some interleaving reaches from a new pool. */
  ghost predicate Reachable(r: State) {
    exists cap: nat, run: seq<Action> :: cap <= USIZE_MAX && Reaches(Init(cap), run, r)
  }

  lemma {:induction false} RunKeeps(s: State, run: seq<Action>, r: State)
    requires Inv(s) && Reaches(s, run, r)
    ensures Inv(r)
    decreases |run|
  {
    hide Inv, Apply, Enabled, Guarded;
    if run != [] {
      StepKeeps(s, run[0]);
      RunKeeps(Apply(s, run[0]), run[1..], r);
    }
  }

  lemma ReachableInv(r: State)
    requires Reachable(r)
    ensures Inv(r)
  {
    hide Inv, Reaches, Init;
    var cap: nat, run: seq<Action> :| cap <= USIZE_MAX && Reaches(Init(cap), run, r);
    InitInv(cap);
    RunKeeps(Init(cap), run, r);
  }

  /** No thread is inside a call: the pool is at rest, or dropped. */
  predicate Quiet(s: State) {
    (s.owner.Idle? || s.owner.Gone?) && s.givers == map[]
  }

  /** A waker still queued when no thread is inside a call waits for something that will come: the
      pool is there, the flag is up for the next giver to see, nothing idle was missed, and a buffer
      is out. */
  lemma NoLostWake(r: State)
    requires Reachable(r) && Quiet(r) && r.home.waiters != []
    ensures r.owner.Idle? && r.home.waiting && !r.unflushed
    ensures r.home.head.None? && forall c | 0 <= c < |r.free| :: r.free[c] == []
    ensures r.out != map[] && forall p | p in r.m :: p in r.out
  {
    ReachableInv(r);
    assert AllInUse(r.m);
    if r.home.head.Some? {
      TopNodes(r.m, r.home.head, r.home.list, List);
      assert false;
    }
    if c :| 0 <= c < |r.free| && r.free[c] != [] {
      OnTops(r, c);
      assert false;
    }
    forall p | p in r.m ensures p in r.out {
      assert Placed(r, p, r.m[p].at);
    }
  }

  /** The wakers popped and not called yet, in all hands. */
  ghost function WakersInHand(s: State): multiset<Waker> {
    Just(OwnerHand(s.owner)) + GiverHands(s.givers)
  }

  /** Wakers leave the queue in the order they came. Each is called once: those ever queued are those
      called, those in the hand of a thread about to call them, and those still queued. */
  lemma WokenOnce(r: State)
    requires Reachable(r)
    ensures r.home.asked == r.home.popped + r.home.waiters
    ensures multiset(r.home.asked) == multiset(r.home.woken) + WakersInHand(r) + multiset(r.home.waiters)
    ensures Quiet(r) ==> WakersInHand(r) == multiset{}
  {
    ReachableInv(r);
    assert Told(r.home.popped, r.home.woken, OwnerHand(r.owner), r.givers);
    assert Queued(r.home, r.unflushed, r.owner, r.givers);
    hide Inv, Reachable;
    assert multiset(r.home.asked) == multiset(r.home.popped) + multiset(r.home.waiters);
  }

  /** With the pool dropped and no thread inside a call, every waker ever queued was called. */
  lemma DropWakesAll(r: State)
    requires Reachable(r) && Quiet(r) && r.owner.Gone?
    ensures r.home.waiters == [] && multiset(r.home.asked) == multiset(r.home.woken)
  {
    ReachableInv(r);
    assert Queued(r.home, r.unflushed, r.owner, r.givers);
    WokenOnce(r);
  }

  /** The ledger is exact and a 64-bit word, and the room left always holds one smallest buffer. */
  lemma LedgerExact(r: State)
    requires Reachable(r) && Up(r.owner)
    ensures r.books.charged == r.books.reserved + Total(Layouts(r.m)) + Pending(r.owner) <= USIZE_MAX
    ensures r.books.reserved + CLASSES[0] <= r.books.cap
    ensures !r.books.lowered ==> r.books.charged <= r.books.cap
  {
    ReachableInv(r);
  }

  /** The books balance. */
  ghost predicate Balanced(s: State) {
    s.books.charged == s.books.reserved + Total(Layouts(s.m)) + Pending(s.owner)
  }

  lemma InvBalanced(s: State)
    requires Inv(s) && Up(s.owner)
    ensures Balanced(s) && s.books.cap <= USIZE_MAX
    ensures s.owner.Making? ==> Sized(s.owner.size, s.owner.goal, s.books)
  {
    hide Spatial, Told, Refs, Dropped, Queued, Seen, Total, Layouts, Sized;
  }

  lemma Overflows(s: State)
    requires Balanced(s) && Enabled(s, Make) && !Guarded(s, Make)
    requires Sized(s.owner.size, s.owner.goal, s.books) && s.books.cap <= USIZE_MAX
    ensures DoMake(s) == Charged(s) && !Balanced(Charged(s))
  {
    hide Total, Layouts, IdleClass, FreeTop;
  }

  lemma MakeUp(s: State)
    requires Enabled(s, Make)
    ensures Apply(s, Make) == DoMake(s) && Up(DoMake(s).owner)
  {
    hide WrappingAdd, SaturatingAdd, IdleClass, FreeTop, Release;
    if IdleClass(s.free).Some? {
      FreeTopHands(s, IdleClass(s.free).value);
      ReleaseHands(FreeTop(s, IdleClass(s.free).value), CLASSES[IdleClass(s.free).value]);
    }
  }

  /** A step of `make_room` leaves the books balanced exactly when it is guarded. */
  lemma GuardExact(r: State)
    requires Reachable(r) && Enabled(r, Make)
    ensures Balanced(Apply(r, Make)) <==> Guarded(r, Make)
  {
    hide Reachable, Inv, Guarded, Balanced, Sized, DoMake;
    ReachableInv(r);
    InvBalanced(r);
    MakeUp(r);
    if Guarded(r, Make) {
      StepKeeps(r, Make);
      InvBalanced(Apply(r, Make));
    } else {
      Overflows(r);
    }
  }

  /** No run frees memory twice or with another layout, touches freed memory or a dropped home,
      indexes past the free lists, or takes the ledger below zero. */
  lemma NeverFaults(r: State)
    requires Reachable(r)
    ensures !r.fault
  {
    ReachableInv(r);
  }

  /** Once the home is dropped nothing is left allocated, and nobody holds it any more. */
  lemma NothingLeaks(r: State)
    requires Reachable(r) && r.closing.Closed?
    ensures r.m == map[] && r.out == map[] && r.givers == map[] && r.owner.Gone?
  {
    ReachableInv(r);
    Somewhere(r);
    TopNodes(r.m, r.home.head, r.home.list, List);
  }
}
