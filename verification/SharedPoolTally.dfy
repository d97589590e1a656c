/** The return list over whole runs of the shared pool: what is pushed is taken once, the list is a
    finite chain, and no thread inside a call is ever stuck. */
module SharedPoolTally {
  import opened Prelude
  import opened SizeClasses
  import opened SharedPool
  import opened SharedPoolProofs
  import opened SharedPoolRuns

  // ----- every push is taken once

  /** Given back, and not yet visited by whoever took the list. */
  predicate InChain(m: Mem, p: Ptr) {
    p in m && m[p].at.AtChain?
  }

  /** The buffer a step pushes on the return list. */
  function Pushed(s: State, a: Action): Option<Ptr>
    requires Enabled(s, a)
  {
    if a.Cas? && s.home.head == s.givers[a.t].seen && !a.spurious then Some(s.givers[a.t].p) else None
  }

  /** The buffer a step visits of a list taken off. */
  function Visited(s: State, a: Action): Option<Ptr>
    requires Enabled(s, a)
  {
    match a
    case Walk => s.owner.cur
    case EndWalk => s.closing.cur
    case _ => None
  }

  /** A step from memory `m` to `n` keeps the count of `p`. */
  predicate Tallied(m: Mem, n: Mem, pushed: Option<Ptr>, visited: Option<Ptr>, p: Ptr) {
    Bit(InChain(m, p)) + Bit(pushed == Some(p)) == Bit(InChain(n, p)) + Bit(visited == Some(p))
  }

  lemma FreedTally(s: State, q: Ptr, l: Layout, n: nat, p: Ptr)
    requires InChain(s.m, q)
    ensures Tallied(s.m, Release(Dealloc(s, q, l), n).m, None, Some(q), p)
  {
  }

  lemma PutTally(m: Mem, q: Ptr, at: Place, p: Ptr)
    requires InChain(m, q) && !at.AtChain?
    ensures Tallied(m, Put(m, q, at), None, Some(q), p)
  {
  }

  lemma WalkOnTally(s: State, p: Ptr)
    requires Enabled(s, Walk) && s.owner.cur.Some? && TopNode(s.m, s.owner.cur, OwnerWalk)
    ensures Tallied(s.m, DoWalk(s).m, None, s.owner.cur, p)
  {
    hide Tallied, Put, Dealloc, Release, Front;
    var o, q := s.owner, s.owner.cur.value;
    var back := s.m[q].back.value;
    var on := s.(owner := o.(cur := back.next, rest := Front(o.rest)));
    FreedTally(on, q, WholeLayout(back.tag.cap), back.tag.cap, p);
    PutTally(s.m, q, AtFound, p);
    if back.tag.cls < |s.free| {
      PutTally(s.m, q, AtFree(back.tag.cls, |s.free[back.tag.cls]|), p);
    }
  }

  lemma WalkEndTally(s: State, p: Ptr)
    requires Found(s.m, s.owner) && Enabled(s, Walk) && s.owner.cur.None?
    ensures Tallied(s.m, DoWalk(s).m, None, None, p)
  {
    hide Chained;
  }

  lemma WalkTally(s: State, p: Ptr)
    requires Found(s.m, s.owner) && Enabled(s, Walk)
    ensures Tallied(s.m, DoWalk(s).m, None, s.owner.cur, p)
  {
    hide DoWalk, Tallied;
    TopNodes(s.m, s.owner.cur, s.owner.rest, OwnerWalk);
    if s.owner.cur.Some? {
      WalkOnTally(s, p);
    } else {
      WalkEndTally(s, p);
    }
  }

  lemma EndWalkTally(s: State, p: Ptr)
    requires Ends(s.m, s.closing) && s.closing.CloseWalk?
    ensures Tallied(s.m, DoEndWalk(s).m, None, s.closing.cur, p)
  {
    TopNodes(s.m, s.closing.cur, s.closing.rest, HomeWalk);
    hide Chained;
  }

  lemma CasTally(s: State, t: Tid, spurious: bool, p: Ptr)
    requires Hands(s.m, s.givers) && Enabled(s, Cas(t, spurious))
    ensures Tallied(s.m, DoCas(s, t, spurious).m, Pushed(s, Cas(t, spurious)), None, p)
  {
    assert InHand(s.m, s.givers[t], t);
  }

  lemma FreeTopTally(s: State, c: nat, p: Ptr)
    requires OnTop(s, c)
    ensures Tallied(s.m, FreeTop(s, c).m, None, None, p)
  {
  }

  lemma GetTally(s: State, c: nat, p: Ptr)
    requires Shelved(s.m, s.free) && Outs(s.m, s.out) && c < |CLASSES|
    ensures Tallied(s.m, DoGet(s, c).m, None, None, p)
  {
    if s.free[c] != [] {
      OnTops(s, c);
    }
    hide Shelved, Outs;
  }

  lemma MakeTally(s: State, p: Ptr)
    requires Shelved(s.m, s.free) && Outs(s.m, s.out)
    ensures Enabled(s, Make) ==> Tallied(s.m, DoMake(s).m, None, None, p)
    ensures s.owner.Draining? ==> Tallied(s.m, DoDrain(s).m, None, None, p)
  {
    var c := IdleClass(s.free);
    if c.Some? {
      OnTops(s, c.value);
      FreeTopTally(s, c.value, p);
    }
    hide Shelved, Outs, FreeTop;
  }

  lemma TakeBackTally(s: State, q: Ptr, p: Ptr)
    requires Outs(s.m, s.out) && q in s.out && ValidTag(s.out[q]) && |s.free| == |CLASSES|
    ensures Tallied(s.m, DoTakeBack(s, q).m, None, None, p)
  {
    assert Is(s.m, q, AtOut);
    hide Outs;
  }

  lemma GiveTally(s: State, t: Tid, q: Ptr, p: Ptr)
    requires Outs(s.m, s.out) && q in s.out
    ensures Tallied(s.m, DoGive(s, t, q).m, None, None, p)
  {
    assert Is(s.m, q, AtOut);
    hide Outs;
  }

  lemma TakeAllTally(s: State, a: Action, p: Ptr)
    requires Enabled(s, a) && (a.Swap? || a.EndSwap?)
    ensures Tallied(s.m, Apply(s, a).m, None, None, p)
  {
  }

  lemma WriteTally(s: State, t: Tid, p: Ptr)
    requires Enabled(s, Write(t))
    ensures Tallied(s.m, DoWrite(s, t).m, None, None, p)
  {
  }

  lemma GrantTally(s: State, grant: Option<Ptr>, p: Ptr)
    requires Enabled(s, Grant(grant))
    ensures Tallied(s.m, DoGrant(s, grant).m, None, None, p)
  {
  }

  // the wake loops, and a giver's other steps, leave memory and ledger alone

  lemma PopKeepsMemory(s: State)
    requires s.owner.Popping?
    ensures DoPop(s).m == s.m && Lowers(s, DoPop(s))
  {
    hide Finish;
    if s.owner.hand.None? && s.home.waiters == [] {
      FinishCalm(Touch(s), s.owner.after);
    }
  }

  lemma GiversKeepMemory(s: State, a: Action)
    requires Enabled(s, a) && (a.Read? || a.Check? || a.Clear? || a.Wake?)
    ensures Apply(s, a).m == s.m && Lowers(s, Apply(s, a))
  {
    hide Unref;
    UnrefCalm(Touch(s).(givers := s.givers - {a.t}));
  }

  lemma SpatialParts(s: State)
    requires Inv(s)
    ensures Shelved(s.m, s.free) && Found(s.m, s.owner) && Outs(s.m, s.out) && Hands(s.m, s.givers)
    ensures Ends(s.m, s.closing) && !s.fault
  {
    hide Shelved, Found, Outs, Hands, Ends, Complete, Chained, Pc, Refs, Dropped, Ledger, Queued, Seen;
  }

  lemma StepTally(s: State, a: Action, p: Ptr)
    requires Inv(s) && Enabled(s, a)
    ensures Tallied(s.m, Apply(s, a).m, Pushed(s, a), Visited(s, a), p)
  {
    hide Shelved, Found, Outs, Hands, Ends, Inv, Tallied, DoWalk;
    SpatialParts(s);
    if a.Walk? {
      WalkTally(s, p);
    } else {
      RestTally(s, a, p);
    }
  }

  lemma RestTally(s: State, a: Action, p: Ptr)
    requires Shelved(s.m, s.free) && Outs(s.m, s.out) && Hands(s.m, s.givers) && Ends(s.m, s.closing)
    requires Enabled(s, a) && !a.Walk?
    ensures Tallied(s.m, Apply(s, a).m, Pushed(s, a), Visited(s, a), p)
  {
    hide Shelved, Outs, Hands, Ends, Tallied, DoGet, DoMake, DoDrain, DoTakeBack, DoGive, DoCas, DoEndWalk,
         DoWrite, DoGrant;
    match a
    case EndWalk => EndWalkTally(s, p);
    case Cas(t, spurious) => CasTally(s, t, spurious, p);
    case Get(c) => GetTally(s, c, p);
    case Make => MakeTally(s, p);
    case Drain => MakeTally(s, p);
    case TakeBack(q) => TakeBackTally(s, q, p);
    case Give(t, q) => GiveTally(s, t, q, p);
    case Swap => TakeAllTally(s, a, p);
    case EndSwap => TakeAllTally(s, a, p);
    case Write(t) => WriteTally(s, t, p);
    case Grant(g) => GrantTally(s, g, p);
    case _ => QuietTally(s, a, p);
  }

  lemma QuietTally(s: State, a: Action, p: Ptr)
    requires Enabled(s, a) && !a.Walk? && !a.EndWalk? && !a.Cas? && !a.Get? && !a.Make? && !a.Drain? && !a.TakeBack?
    requires !a.Give? && !a.Swap? && !a.EndSwap? && !a.Write? && !a.Grant?
    ensures Tallied(s.m, Apply(s, a).m, Pushed(s, a), Visited(s, a), p)
  {
    hide Apply, Enabled, SameHands;
    if a.Wait? || a.Raise? || a.Fence? || a.Flush? || a.Look? {
      WaitsCalm(s, a);
    } else if a.Note? || a.Lower? {
      LooksCalm(s, a);
    } else if a.Pop? {
      AppliedLoop(s, a);
      PopKeepsMemory(s);
    } else if a.Read? || a.Check? || a.Clear? || a.Wake? {
      GiversKeepMemory(s, a);
    } else if a.GetWhole? || a.Load? {
      AsksCalm(s, a);
    } else {
      BooksCalm(s, a);
    }
  }

  /** How often `p` is pushed in a run. */
  ghost function Pushes(s: State, run: seq<Action>, r: State, p: Ptr): nat
    requires Reaches(s, run, r)
    decreases |run|
  {
    if run == [] then 0
    else Bit(Pushed(s, run[0]) == Some(p)) + Pushes(Apply(s, run[0]), run[1..], r, p)
  }

  /** How often `p` is visited in a run. */
  ghost function Visits(s: State, run: seq<Action>, r: State, p: Ptr): nat
    requires Reaches(s, run, r)
    decreases |run|
  {
    if run == [] then 0
    else Bit(Visited(s, run[0]) == Some(p)) + Visits(Apply(s, run[0]), run[1..], r, p)
  }

  lemma {:induction false} RunTally(s: State, run: seq<Action>, r: State, p: Ptr)
    requires Inv(s) && Reaches(s, run, r)
    ensures Bit(InChain(s.m, p)) + Pushes(s, run, r, p) == Bit(InChain(r.m, p)) + Visits(s, run, r, p)
    decreases |run|
  {
    hide Inv, Apply, Enabled, Guarded, Pushed, Visited, InChain;
    if run != [] {
      StepKeeps(s, run[0]);
      StepTally(s, run[0], p);
      RunTally(Apply(s, run[0]), run[1..], r, p);
    }
  }

  /** In every run every push of a buffer is visited once, in a walk of the list it was taken with,
      or is still to be: whatever came back in between, and however often the buffer was reused. */
  lemma TakenExactlyOnce(cap: nat, run: seq<Action>, r: State, p: Ptr)
    requires cap <= USIZE_MAX && Reaches(Init(cap), run, r)
    ensures Pushes(Init(cap), run, r, p) == Visits(Init(cap), run, r, p) + Bit(InChain(r.m, p))
  {
    InitInv(cap);
    RunTally(Init(cap), run, r, p);
  }

  // ----- the list itself

  /** Following the links from `top` gives `nodes`, and ends. */
  predicate Links(m: Mem, top: Option<Ptr>, nodes: seq<Ptr>)
    decreases |nodes|
  {
    if nodes == [] then top == None
    else
      && top == Some(nodes[0]) && nodes[0] in m && m[nodes[0]].back.Some?
      && Links(m, m[nodes[0]].back.value.next, nodes[1..])
  }

  function Reversed(nodes: seq<Ptr>): seq<Ptr> {
    if nodes == [] then [] else [Last(nodes)] + Reversed(Front(nodes))
  }

  lemma {:induction false} ChainLinks(m: Mem, top: Option<Ptr>, nodes: seq<Ptr>, chain: Chain)
    requires Chained(m, top, nodes, chain)
    ensures Links(m, top, Reversed(nodes))
    ensures forall p :: p in Reversed(nodes) <==> p in nodes
    decreases |nodes|
  {
    if nodes != [] {
      var n := |nodes| - 1;
      assert Node(m, nodes, chain, n);
      forall i | 0 <= i < n ensures Node(m, Front(nodes), chain, i) {
        assert Node(m, nodes, chain, i);
      }
      ChainLinks(m, Below(nodes, n), Front(nodes), chain);
      assert nodes == Front(nodes) + [Last(nodes)];
    }
  }

  /** The links from the head of the return list end, visit no buffer twice, and visit exactly the
      buffers given back and not taken. */
  lemma ListAcyclic(r: State)
    requires Reachable(r)
    ensures Links(r.m, r.home.head, Reversed(r.home.list))
    ensures forall i, j | 0 <= i < j < |r.home.list| :: r.home.list[i] != r.home.list[j]
    ensures forall p :: p in r.home.list <==> p in r.m && r.m[p].at.AtChain? && r.m[p].at.chain == List
  {
    ReachableInv(r);
    ChainLinks(r.m, r.home.head, r.home.list, List);
    ChainMembers(r);
  }

  lemma ChainMembers(s: State)
    requires Chained(s.m, s.home.head, s.home.list, List) && Complete(s)
    ensures forall i, j | 0 <= i < j < |s.home.list| :: s.home.list[i] != s.home.list[j]
    ensures forall p :: p in s.home.list <==> p in s.m && s.m[p].at.AtChain? && s.m[p].at.chain == List
  {
    forall i | 0 <= i < |s.home.list| ensures Is(s.m, s.home.list[i], AtChain(List, i)) {
      assert Node(s.m, s.home.list, List, i);
    }
    forall p | p in s.m && s.m[p].at.AtChain? && s.m[p].at.chain == List ensures p in s.home.list {
      assert Placed(s, p, s.m[p].at);
    }
  }

  // ----- no call is stuck

  /** What the owner does next in its call. */
  function OwnerNext(s: State): Action
    requires !s.owner.Idle? && !s.owner.Gone?
  {
    match s.owner
    case Loading(_) => Load
    case Swapping(_) => Swap
    case Walking(_, _, _, _) => Walk
    case Making(_, _) => Make
    case Granting(_) => Grant(None)
    case Noting => Note
    case Raising => Raise
    case Fencing => if s.unflushed then Flush else Fence
    case Looking => Look
    case Lowering(_) => Lower
    case Popping(_, _) => Pop
    case Draining => Drain
  }

  function GiverNext(g: Giver, t: Tid): Action {
    match g
    case Reading(_, _) => Read(t)
    case Writing(_, _, _) => Write(t)
    case Trying(_, _, _) => Cas(t, false)
    case Checking => Check(t)
    case Clearing => Clear(t)
    case Waking(_) => Wake(t)
  }

  function EndNext(c: Closing): Action
    requires !c.Open? && !c.Closed?
  {
    match c
    case CloseLoad => EndLoad
    case CloseSwap => EndSwap
    case CloseWalk(_, _) => EndWalk
  }

  /** In every reachable state every call in progress has a next step. */
  lemma NeverStuck(r: State)
    requires Reachable(r)
    ensures !r.owner.Idle? && !r.owner.Gone? ==> Enabled(r, OwnerNext(r))
    ensures forall t | t in r.givers :: Enabled(r, GiverNext(r.givers[t], t))
    ensures !r.closing.Open? && !r.closing.Closed? ==> Enabled(r, EndNext(r.closing))
  {
    hide Reachable, Enabled, OwnerNext, GiverNext, EndNext, Pc;
    ReachableInv(r);
    PcParts(r);
    if !r.owner.Idle? && !r.owner.Gone? {
      OwnerNotStuck(r);
    }
    forall t | t in r.givers ensures Enabled(r, GiverNext(r.givers[t], t)) {
      GiverNotStuck(r, t);
    }
    if !r.closing.Open? && !r.closing.Closed? {
      EndNotStuck(r);
    }
  }

  lemma PcParts(s: State)
    requires Inv(s)
    ensures |s.free| == |CLASSES| && Pc(s.owner, s.unflushed, s.books) && s.books.cap <= USIZE_MAX
    ensures Up(s.owner) ==> s.books.charged <= USIZE_MAX
  {
    hide Shelf, Found, Outs, Hands, Ends, Complete, Chained, Pc, Refs, Dropped, Queued, Seen, Told, Total;
  }

  lemma OwnerNotStuck(s: State)
    requires |s.free| == |CLASSES| && Pc(s.owner, s.unflushed, s.books) && !s.owner.Idle? && !s.owner.Gone?
    requires s.books.cap <= USIZE_MAX && (Up(s.owner) ==> s.books.charged <= USIZE_MAX)
    ensures Enabled(s, OwnerNext(s))
  {
  }

  lemma GiverNotStuck(s: State, t: Tid)
    requires |s.free| == |CLASSES| && t in s.givers
    ensures Enabled(s, GiverNext(s.givers[t], t))
  {
  }

  lemma EndNotStuck(s: State)
    requires |s.free| == |CLASSES| && !s.closing.Open? && !s.closing.Closed?
    ensures Enabled(s, EndNext(s.closing))
  {
  }

  // ----- the cap

  /** A step that raises the ledger ends at or under the cap. */
  lemma RaisesUnderCap(r: State, a: Action)
    requires Reachable(r) && Enabled(r, a) && Guarded(r, a)
    ensures Apply(r, a).books.charged <= r.books.charged || Apply(r, a).books.charged <= Apply(r, a).books.cap
  {
    hide Enabled, Apply, Guarded;
    if a.Make? {
      AppliedMoves(r, a);
      MakeRaises(r);
    } else {
      OnlyMakeRaises(r, a);
    }
  }

  lemma ChargedUnderCap(s: State)
    requires Enabled(s, Make) && Guarded(s, Make) && FitsCap(s.books.cap, s.books.charged, s.owner.size)
    ensures Charged(s).books.charged <= Charged(s).books.cap || Lowers(s, Charged(s))
  {
  }

  lemma MakeRaises(s: State)
    requires Enabled(s, Make) && Guarded(s, Make)
    ensures Lowers(s, DoMake(s)) || DoMake(s).books.charged <= DoMake(s).books.cap
  {
    hide Charged, FreeTop, IdleClass, Release, FitsCap;
    if FitsCap(s.books.cap, s.books.charged, s.owner.size) {
      ChargedUnderCap(s);
    } else {
      MakeHands(s);
    }
  }

  lemma OnlyMakeRaises(s: State, a: Action)
    requires Enabled(s, a) && !a.Make?
    ensures Lowers(s, Apply(s, a))
  {
    hide Enabled, Apply, Lowers, SameHands;
    if a.Get? || a.Swap? || a.Grant? || a.TakeBack? {
      OwnerHands(s, a);
    } else if a.Drain? || a.EndSwap? || a.EndWalk? {
      EndHands(s, a);
    } else if a.Give? || a.Read? || a.Write? || a.Cas? {
      PushMoves(s, a);
    } else if a.Check? || a.Clear? {
      LookMoves(s, a);
    } else if a.Walk? {
      AppliedMoves(s, a);
      WalkHands(s);
    } else {
      CalmLowers(s, a);
    }
  }

  lemma CalmLowers(s: State, a: Action)
    requires Enabled(s, a)
    requires a.Wait? || a.Raise? || a.Fence? || a.Flush? || a.Look? || a.Note? || a.Lower? || a.Pop? || a.Wake?
             || a.GetWhole? || a.Load? || a.Reserve? || a.Unreserve? || a.HoldTo? || a.Drop? || a.EndLoad?
    ensures Lowers(s, Apply(s, a))
  {
    hide Enabled, Apply, Lowers, SameHands;
    if a.Wait? || a.Raise? || a.Fence? || a.Flush? || a.Look? {
      WaitsCalm(s, a);
    } else if a.Note? || a.Lower? {
      LooksCalm(s, a);
    } else if a.Pop? {
      AppliedLoop(s, a);
      PopKeepsMemory(s);
    } else if a.Wake? {
      GiversKeepMemory(s, a);
    } else if a.GetWhole? || a.Load? {
      AsksCalm(s, a);
    } else {
      BooksCalm(s, a);
    }
  }
}
