/** When the pool refuses: a request that runs to its end with no giver in between is refused exactly
    when what is out, the reservation and the request pass the cap. */
module SharedPoolRefusal {
  import opened Prelude
  import opened SizeClasses
  import opened SharedPool
  import opened SharedPoolProofs
  import opened SharedPoolRuns

  ghost function OutLayouts(out: map<Ptr, Tag>): map<Ptr, Layout> {
    map p | p in out && ValidTag(out[p]) :: ReturnedLayout(out[p])
  }

  /** The request fits beside the reservation and the buffers out. */
  ghost predicate FitsOut(b: Books, out: map<Ptr, Tag>, want: Want) {
    ValidWant(want) && b.reserved + Total(OutLayouts(out)) + TagFor(want).cap <= b.cap
  }

  /** The owner's own steps in a request, with an allocator that does not fail. */
  predicate RequestStep(a: Action) {
    a.Load? || a.Swap? || a.Walk? || a.Make? || (a.Grant? && a.grant.Some?)
  }

  /** The request is past the return list, with nothing on it. */
  predicate Past(o: Owner, list: seq<Ptr>, want: Want, fits: bool) {
    match o
    case Loading(w) => w == want
    case Swapping(w) => w == want
    case Walking(_, _, w, _) => w == want && list == []
    case Making(_, goal) => goal == ForBuf(want) && list == []
    case Granting(w) => w == want && fits
    case _ => false
  }

  /** Midway in the request for `want` begun in `s0`. */
  ghost predicate Midway(s0: State, want: Want, s: State) {
    && s.givers == map[] && s.out == s0.out
    && s.books == s0.books.(charged := s.books.charged) && !s.books.lowered
    && Past(s.owner, s.home.list, want, FitsOut(s0.books, s0.out, want))
  }

  /** The request ended: with a buffer that was not out if it fits, and with nothing if not. */
  ghost predicate Answered(s0: State, want: Want, r: State) {
    && r.owner.Idle? && ValidWant(want)
    && if FitsOut(s0.books, s0.out, want) then exists p: Ptr :: p !in s0.out && r.out == s0.out[p := TagFor(want)]
       else r.out == s0.out
  }

  // ----- the bytes out against the bytes held

  lemma OutWithin(m: Mem, out: map<Ptr, Tag>)
    requires Outs(m, out)
    ensures Total(OutLayouts(out)) <= Total(Layouts(m))
    ensures (forall p | p in m :: p in out) ==> Total(OutLayouts(out)) == Total(Layouts(m))
  {
    hide Total;
    TotalMonotone(OutLayouts(out), Layouts(m));
    if forall p | p in m :: p in out {
      assert OutLayouts(out) == Layouts(m);
    }
  }

  lemma OutBeside(m: Mem, out: map<Ptr, Tag>, p: Ptr)
    requires Outs(m, out) && p in m && p !in out
    ensures Total(OutLayouts(out)) + m[p].layout.size <= Total(Layouts(m))
  {
    hide Total;
    TotalAdd(OutLayouts(out), p, m[p].layout);
    TotalMonotone(OutLayouts(out)[p := m[p].layout], Layouts(m));
  }

  /** What the invariant says of the owner in a request. */
  lemma RequestFacts(s: State)
    requires Inv(s) && Up(s.owner) && !s.books.lowered
    ensures s.books.charged == s.books.reserved + Total(Layouts(s.m)) + Pending(s.owner) <= s.books.cap
    ensures Outs(s.m, s.out) && Found(s.m, s.owner) && Pc(s.owner, s.unflushed, s.books)
    ensures s.home.head.None? ==> s.home.list == []
  {
    hide Shelved, Found, Outs, Hands, Ends, Complete, Pc, Refs, Dropped, Queued, Seen, Told, Total, Layouts;
  }

  // ----- step by step

  lemma LoadMidway(s0: State, want: Want, s: State)
    requires Inv(s) && Midway(s0, want, s) && Enabled(s, Load)
    ensures Midway(s0, want, DoLoad(s))
  {
    hide Inv, FitsOut;
    RequestFacts(s);
  }

  lemma SwapMidway(s0: State, want: Want, s: State)
    requires Midway(s0, want, s) && Enabled(s, Swap)
    ensures Midway(s0, want, DoSwap(s))
  {
    hide FitsOut, Moved;
  }

  /** All that a walk over a returned buffer leaves as it was. */
  predicate Unmoved(s: State, r: State) {
    && r.out == s.out && r.givers == s.givers && r.home == s.home
    && r.books == s.books.(charged := r.books.charged)
  }

  lemma FreedUnmoved(s: State, p: Ptr, l: Layout, n: nat)
    ensures Unmoved(s, Release(Dealloc(s, p, l), n)) && Release(Dealloc(s, p, l), n).owner == s.owner
  {
  }

  lemma WalkFrame(s: State)
    requires s.owner.Walking? && ValidWant(s.owner.want) && |s.free| == |CLASSES| && s.owner.cur.Some?
    requires s.owner.found.Some? ==> s.owner.want.Class?
    ensures var r := DoWalk(s);
            Unmoved(s, r) && r.owner.Walking? && r.owner.want == s.owner.want
  {
    hide Put, ValidTag, Front, Release, Dealloc, WholeLayout;
    var o, p := s.owner, s.owner.cur.value;
    if p in s.m && s.m[p].back.Some? {
      var back := s.m[p].back.value;
      var on := s.(owner := o.(cur := back.next, rest := Front(o.rest)));
      FreedUnmoved(on, p, WholeLayout(back.tag.cap), back.tag.cap);
    }
  }

  lemma WalkMidway(s0: State, want: Want, s: State)
    requires Inv(s) && Midway(s0, want, s) && Enabled(s, Walk)
    ensures Midway(s0, want, DoWalk(s)) || Answered(s0, want, DoWalk(s))
  {
    hide Inv, FitsOut, Total, Layouts;
    RequestFacts(s);
    if s.owner.cur.Some? {
      hide DoWalk;
      WalkFrame(s);
    } else if s.owner.found.Some? {
      FoundAnswers(s0, want, s);
    }
  }

  lemma FoundAnswers(s0: State, want: Want, s: State)
    requires Inv(s) && Midway(s0, want, s) && Enabled(s, Walk) && s.owner.cur.None? && s.owner.found.Some?
    ensures Answered(s0, want, DoWalk(s))
  {
    hide Inv, Total, Layouts, OutLayouts, Chained;
    RequestFacts(s);
    var p := s.owner.found.value;
    assert p !in s.out;
    OutBeside(s.m, s.out, p);
    assert DoWalk(s).out == s0.out[p := TagFor(want)];
  }

  lemma AllOut(s: State)
    requires Inv(s) && s.owner.Making? && s.home.list == [] && s.givers == map[]
    ensures |s.free| == |CLASSES| && (IdleClass(s.free).None? ==> forall p | p in s.m :: p in s.out)
  {
    hide Outs, Hands, Chained, Pc, Refs, Dropped, Ledger, Queued, Seen, Told, Found, Shelf;
    OwnerUp(s);
    if IdleClass(s.free).None? {
      forall p | p in s.m ensures p in s.out {
        assert Placed(s, p, s.m[p].at);
      }
    }
  }

  lemma MakeMidway(s0: State, want: Want, s: State)
    requires Inv(s) && Midway(s0, want, s) && Enabled(s, Make) && Guarded(s, Make)
    ensures Midway(s0, want, DoMake(s)) || Answered(s0, want, DoMake(s))
  {
    hide Inv, Total, Layouts, OutLayouts, FreeTop;
    RequestFacts(s);
    AllOut(s);
    OutWithin(s.m, s.out);
    if !FitsCap(s.books.cap, s.books.charged, s.owner.size) && IdleClass(s.free).Some? {
      FreeTopHands(s, IdleClass(s.free).value);
      FreeTopOut(s, IdleClass(s.free).value);
    }
  }

  lemma FreeTopOut(s: State, c: nat)
    requires |s.free| == |CLASSES| && c < |CLASSES| && s.free[c] != []
    ensures FreeTop(s, c).out == s.out && FreeTop(s, c).home == s.home
  {
  }

  lemma GrantAnswers(s0: State, want: Want, s: State, p: Ptr)
    requires Inv(s) && Midway(s0, want, s) && Enabled(s, Grant(Some(p)))
    ensures Answered(s0, want, DoGrant(s, Some(p)))
  {
    hide Inv, FitsOut;
    RequestFacts(s);
    assert p !in s.out;
    assert DoGrant(s, Some(p)).out == s0.out[p := TagFor(want)];
  }

  lemma RequestKeeps(s0: State, want: Want, s: State, a: Action)
    requires Inv(s) && Midway(s0, want, s) && Enabled(s, a) && Guarded(s, a) && RequestStep(a)
    ensures Midway(s0, want, Apply(s, a)) || Answered(s0, want, Apply(s, a))
  {
    hide Inv, Midway, Answered, DoLoad, DoSwap, DoWalk, DoMake, DoGrant;
    match a
    case Load => LoadMidway(s0, want, s);
    case Swap => SwapMidway(s0, want, s);
    case Walk => WalkMidway(s0, want, s);
    case Make => MakeMidway(s0, want, s);
    case Grant(g) => GrantAnswers(s0, want, s, g.value);
  }

  /** Nothing of a request is left to do once it has ended. */
  lemma EndsThere(s: State, a: Action)
    requires s.owner.Idle? && RequestStep(a)
    ensures !Enabled(s, a)
  {
  }

  lemma {:induction false} RequestRun(s0: State, want: Want, s: State, run: seq<Action>, r: State)
    requires Inv(s) && (Midway(s0, want, s) || Answered(s0, want, s))
    requires Reaches(s, run, r) && (forall j | 0 <= j < |run| :: RequestStep(run[j])) && r.owner.Idle?
    ensures Answered(s0, want, r)
    decreases |run|
  {
    hide Inv, Apply, Enabled, Guarded, FitsOut;
    if run != [] {
      if s.owner.Idle? {
        EndsThere(s, run[0]);
      } else {
        StepKeeps(s, run[0]);
        RequestKeeps(s0, want, s, run[0]);
        RequestRun(s0, want, Apply(s, run[0]), run[1..], r);
      }
    }
  }

  /** The first step of a request: a buffer off the free list, or the way to the return list. */
  lemma Begins(s: State, a: Action, want: Want)
    requires Inv(s) && Enabled(s, a) && s.givers == map[] && !s.books.lowered
    requires (a.Get? && want == Class(a.c)) || (a.GetWhole? && want == Whole(a.bytes))
    ensures Midway(s, want, Apply(s, a)) || Answered(s, want, Apply(s, a))
  {
    hide Inv, Total, Layouts, OutLayouts;
    RequestFacts(s);
    if a.Get? && s.free[a.c] != [] {
      TopFree(s, a.c);
      var p := Last(s.free[a.c]);
      OutBeside(s.m, s.out, p);
      assert Apply(s, a).out == s.out[p := TagFor(want)];
    }
  }

  lemma TopFree(s: State, c: nat)
    requires Inv(s) && c < |CLASSES| && s.free[c] != []
    ensures OnTop(s, c)
  {
    hide Shelf, Found, Outs, Hands, Ends, Complete, Chained, Rest, Told;
    OnTops(s, c);
  }

  /** On a pool whose cap was never lowered, with no giver on and an allocator that does not fail, a
      request that has run to its end got a buffer, one that was not out, exactly when its bytes fit
      beside the reservation and the bytes out. */
  lemma ExactRefusal(s: State, a: Action, want: Want, run: seq<Action>, r: State)
    requires Reachable(s) && Enabled(s, a) && s.givers == map[] && !s.books.lowered
    requires (a.Get? && want == Class(a.c)) || (a.GetWhole? && want == Whole(a.bytes))
    requires Reaches(Apply(s, a), run, r) && (forall j | 0 <= j < |run| :: RequestStep(run[j])) && r.owner.Idle?
    ensures Answered(s, want, r)
  {
    hide Reachable, Reaches, Inv, Enabled, Apply, Midway, Answered;
    ReachableInv(s);
    StepKeeps(s, a);
    Begins(s, a, want);
    RequestRun(s, want, Apply(s, a), run, r);
  }
}
