/** What every step of the shared pool keeps, and what follows for every run. */
module SharedPoolProofs {
  import opened Prelude
  import opened SizeClasses
  import opened SharedPool

  // ----- where every allocation is

  function TopOf(list: seq<Ptr>): Option<Ptr> {
    if list == [] then None else Some(Last(list))
  }

  function Below(list: seq<Ptr>, i: nat): Option<Ptr>
    requires i < |list|
  {
    if i == 0 then None else Some(list[i - 1])
  }

  ghost predicate Fits(a: Alloc, tag: Tag) {
    ValidTag(tag) && ReturnedLayout(tag) == a.layout
  }

  ghost predicate Is(m: Mem, p: Ptr, at: Place) {
    p in m && m[p].at == at
  }

  /** Buffer `i` of the free list `shelf` of class `c`. */
  ghost predicate Kept(m: Mem, shelf: seq<Ptr>, c: nat, i: nat)
    requires c < |CLASSES| && i < |shelf|
  {
    Is(m, shelf[i], AtFree(c, i)) && m[shelf[i]].layout == ClassLayout(c)
  }

  ghost predicate Shelf(m: Mem, shelf: seq<Ptr>, c: nat)
    requires c < |CLASSES|
  {
    forall i | 0 <= i < |shelf| :: Kept(m, shelf, c, i)
  }

  ghost predicate Shelved(m: Mem, free: seq<seq<Ptr>>) {
    |free| == |CLASSES| && forall c | 0 <= c < |CLASSES| :: Shelf(m, free[c], c)
  }

  /** Node `i` of a chain: its memory holds a tag that frees it right, and the link to the node below. */
  ghost predicate Node(m: Mem, nodes: seq<Ptr>, chain: Chain, i: nat)
    requires i < |nodes|
  {
    && Is(m, nodes[i], AtChain(chain, i))
    && m[nodes[i]].back.Some? && m[nodes[i]].back.value.next == Below(nodes, i)
    && Fits(m[nodes[i]], m[nodes[i]].back.value.tag)
  }

  ghost predicate Chained(m: Mem, top: Option<Ptr>, nodes: seq<Ptr>, chain: Chain) {
    && top == TopOf(nodes)
    && forall i | 0 <= i < |nodes| :: Node(m, nodes, chain, i)
  }

  ghost predicate Found(m: Mem, o: Owner) {
    o.Walking? ==>
      && Chained(m, o.cur, o.rest, OwnerWalk)
      && (o.found.Some? ==>
            && Is(m, o.found.value, AtFound) && o.want.Class?
            && o.want.cls < |CLASSES| && m[o.found.value].layout == ClassLayout(o.want.cls))
  }

  ghost predicate Outs(m: Mem, out: map<Ptr, Tag>) {
    forall p | p in out :: Is(m, p, AtOut) && Fits(m[p], out[p])
  }

  ghost predicate InHand(m: Mem, g: Giver, t: Tid) {
    Holding(g) ==>
      && Is(m, g.p, AtGiver(t)) && Fits(m[g.p], g.tag)
      && (g.Trying? ==> m[g.p].back == Some(Back(g.seen, g.tag)))
  }

  ghost predicate Hands(m: Mem, givers: map<Tid, Giver>) {
    forall t | t in givers :: InHand(m, givers[t], t)
  }

  ghost predicate Ends(m: Mem, closing: Closing) {
    closing.CloseWalk? ==> Chained(m, closing.cur, closing.rest, HomeWalk)
  }

  function RestOf(o: Owner): seq<Ptr> {
    if o.Walking? then o.rest else []
  }

  function FoundOf(o: Owner): Option<Ptr> {
    if o.Walking? then o.found else None
  }

  function EndRest(closing: Closing): seq<Ptr> {
    if closing.CloseWalk? then closing.rest else []
  }

  ghost predicate InGiver(givers: map<Tid, Giver>, t: Tid, p: Ptr) {
    t in givers && Holding(givers[t]) && givers[t].p == p
  }

  ghost predicate Nth(nodes: seq<Ptr>, i: nat, p: Ptr) {
    i < |nodes| && nodes[i] == p
  }

  /** An allocation is where it is said to be. */
  ghost predicate Placed(s: State, p: Ptr, at: Place) {
    match at
    case AtFree(c, i) => c < |s.free| && Nth(s.free[c], i, p)
    case AtChain(List, i) => Nth(s.home.list, i, p)
    case AtChain(OwnerWalk, i) => Nth(RestOf(s.owner), i, p)
    case AtChain(HomeWalk, i) => Nth(EndRest(s.closing), i, p)
    case AtFound => FoundOf(s.owner) == Some(p)
    case AtOut => p in s.out
    case AtGiver(t) => InGiver(s.givers, t, p)
  }

  ghost predicate Complete(s: State) {
    forall p | p in s.m :: Placed(s, p, s.m[p].at)
  }

  ghost predicate Spatial(s: State) {
    && Shelved(s.m, s.free)
    && Chained(s.m, s.home.head, s.home.list, List)
    && Found(s.m, s.owner)
    && Outs(s.m, s.out)
    && Hands(s.m, s.givers)
    && Ends(s.m, s.closing)
    && Complete(s)
  }

  // ----- program counters and references

  /** References to the home the owner holds: the pool's, and the buffer it is dropping. */
  function OwnerRefs(o: Owner): nat {
    match o
    case Gone => 0
    case Noting => 2
    case Lowering(after) => if after.DropBuf? then 2 else 1
    case Popping(after, _) => if after.DropBuf? then 2 else 1
    case _ => 1
  }

  /** The pool is in use: its drop has not begun. */
  predicate Up(o: Owner) {
    match o
    case Gone => false
    case Draining => false
    case Lowering(after) => !after.DropPool?
    case Popping(after, _) => !after.DropPool?
    case _ => true
  }

  ghost predicate Pc(o: Owner, unflushed: bool, b: Books) {
    && (unflushed ==> o.Fencing?)
    && match o
       case Loading(want) => ValidWant(want)
       case Swapping(want) => ValidWant(want)
       case Walking(_, found, want, _) => ValidWant(want) && (found.Some? ==> want.Class?)
       case Granting(want) => ValidWant(want)
       case Making(size, goal) => Sized(size, goal, b)
       case _ => true
  }

  ghost predicate Sized(size: nat, goal: Goal, b: Books) {
    match goal
    case ForBuf(want) => ValidWant(want) && size == TagFor(want).cap
    case ForReserve(n) => size == n && b.reserved + n + CLASSES[0] <= b.cap
    case ForCap => size == 0
  }

  ghost predicate Refs(refs: nat, closing: Closing, out: map<Ptr, Tag>, givers: map<Tid, Giver>, o: Owner) {
    && refs == |out| + |givers| + OwnerRefs(o)
    && (closing.Open? <==> refs > 0)
  }

  /** Once the pool is dropped its free lists are empty; once the home's walk began, its list is. */
  ghost predicate Dropped(free: seq<seq<Ptr>>, o: Owner, list: seq<Ptr>, closing: Closing) {
    && (!Up(o) && !o.Draining? && |free| == |CLASSES| ==> IdleClass(free).None?)
    && (closing.CloseWalk? || closing.Closed? ==> list == [])
  }

  // ----- the ledger

  function Layouts(m: Mem): map<Ptr, Layout> {
    map p | p in m :: m[p].layout
  }

  /** Bytes charged for memory the allocator has not given yet. */
  function Pending(o: Owner): nat {
    if o.Granting? && ValidWant(o.want) then TagFor(o.want).cap else 0
  }

  ghost predicate Ledger(m: Mem, b: Books, o: Owner) {
    && b.reserved + CLASSES[0] <= b.cap <= USIZE_MAX
    && (Up(o) ==> b.charged == b.reserved + Total(Layouts(m)) + Pending(o) <= USIZE_MAX)
    && (Up(o) && !b.lowered ==> b.charged <= b.cap)
  }

  // ----- the sleep and wake handshake

  ghost predicate WillLook(g: Giver) {
    g.Checking? || g.Clearing?
  }

  ghost predicate SomeLooker(givers: map<Tid, Giver>) {
    exists t :: t in givers && WillLook(givers[t])
  }

  ghost predicate SomeWaker(givers: map<Tid, Giver>) {
    exists t :: t in givers && givers[t].Waking?
  }

  predicate OwnerLooks(o: Owner) {
    o.Noting? || o.Fencing? || o.Looking? || o.Lowering?
  }

  /** Something is out to come back, and nothing is idle. */
  ghost predicate AllInUse(m: Mem) {
    m != map[] && forall p | p in m :: m[p].at.AtOut? || m[p].at.AtGiver?
  }

  /** The waker a wake loop has popped and not called yet. */
  function OwnerHand(o: Owner): Option<Waker> {
    if o.Popping? then o.hand else None
  }

  function GiverHand(g: Giver): Option<Waker> {
    if g.Waking? then g.hand else None
  }

  function Just(w: Option<Waker>): multiset<Waker> {
    if w.Some? then multiset{w.value} else multiset{}
  }

  /** The wakers givers have popped and not called yet. */
  ghost function GiverHands(givers: map<Tid, Giver>): multiset<Waker>
    decreases |givers|
  {
    if givers == map[] then multiset{}
    else
      var t :| t in givers;
      Just(GiverHand(givers[t])) + GiverHands(givers - {t})
  }

  /** Every waker popped was called, or is in somebody's hand. */
  ghost predicate Told(popped: seq<Waker>, woken: seq<Waker>, hand: Option<Waker>, givers: map<Tid, Giver>) {
    multiset(popped) == multiset(woken) + Just(hand) + GiverHands(givers)
  }

  /** A queued waker has its flag up, or someone on the way to wake it; once the pool's own wakes are
      done the flag is down for good. */
  ghost predicate Queued(h: Home, unflushed: bool, o: Owner, givers: map<Tid, Giver>) {
    && h.asked == h.popped + h.waiters
    && (o.Gone? || (o.Popping? && o.after.DropPool?) ==> !h.waiting && !unflushed)
    && (h.waiters != [] ==> h.waiting || unflushed || o.Raising? || o.Popping? || SomeWaker(givers))
  }

  /** A raised flag has someone on the way to look at it, or no idle buffer to be woken for. */
  ghost predicate Seen(flag: bool, o: Owner, givers: map<Tid, Giver>, m: Mem) {
    && (o.Raising? || o.Fencing? || o.Looking? ==> m != map[])
    && (flag && Up(o) ==> OwnerLooks(o) || SomeLooker(givers) || AllInUse(m))
  }

  ghost predicate Rest(s: State) {
    && !s.fault
    && Pc(s.owner, s.unflushed, s.books)
    && Refs(s.refs, s.closing, s.out, s.givers, s.owner)
    && Dropped(s.free, s.owner, s.home.list, s.closing)
    && Ledger(s.m, s.books, s.owner)
    && Queued(s.home, s.unflushed, s.owner, s.givers)
    && Seen(s.home.waiting || s.unflushed, s.owner, s.givers, s.m)
  }

  ghost predicate Base(s: State) {
    Spatial(s) && Rest(s)
  }

  ghost predicate Inv(s: State) {
    Base(s) && Told(s.home.popped, s.home.woken, OwnerHand(s.owner), s.givers)
  }

  lemma InitSpatial(cap: nat)
    ensures Spatial(Init(cap))
  {
  }

  lemma NoBytes()
    ensures Total(Layouts(map[])) == 0
  {
    assert Layouts(map[]) == map[];
  }

  lemma InitLedger(cap: nat)
    requires cap <= USIZE_MAX
    ensures Ledger(map[], Init(cap).books, Idle)
  {
    hide Total, Layouts;
    NoBytes();
  }

  lemma InitBase(cap: nat)
    requires cap <= USIZE_MAX
    ensures Base(Init(cap))
  {
    hide Spatial, Ledger;
    InitSpatial(cap);
    InitLedger(cap);
  }

  // ----- what a change at one allocation leaves alone

  lemma ShelfKept(m: Mem, p: Ptr, n: Mem, free: seq<seq<Ptr>>)
    requires Shelved(m, free) && m - {p} == n - {p}
    requires p in m ==> !m[p].at.AtFree?
    ensures Shelved(n, free)
  {
    forall c, i | 0 <= c < |CLASSES| && 0 <= i < |free[c]| ensures Kept(n, free[c], c, i) {
      assert Shelf(m, free[c], c) && Kept(m, free[c], c, i);
      assert free[c][i] in m - {p};
    }
  }

  lemma ChainKept(m: Mem, p: Ptr, n: Mem, top: Option<Ptr>, nodes: seq<Ptr>, chain: Chain)
    requires Chained(m, top, nodes, chain) && m - {p} == n - {p}
    requires p in m ==> !m[p].at.AtChain? || m[p].at.chain != chain
    ensures Chained(n, top, nodes, chain)
  {
    forall i | 0 <= i < |nodes| ensures Node(n, nodes, chain, i) {
      assert Node(m, nodes, chain, i);
      assert nodes[i] in m - {p};
    }
  }

  lemma OutsKept(m: Mem, p: Ptr, n: Mem, out: map<Ptr, Tag>)
    requires Outs(m, out) && m - {p} == n - {p}
    requires p in m ==> !m[p].at.AtOut?
    ensures Outs(n, out)
  {
    forall q | q in out ensures Is(n, q, AtOut) && Fits(n[q], out[q]) {
      assert q in m - {p};
    }
  }

  lemma HandsKept(m: Mem, p: Ptr, n: Mem, givers: map<Tid, Giver>)
    requires Hands(m, givers) && m - {p} == n - {p}
    requires p in m ==> !m[p].at.AtGiver?
    ensures Hands(n, givers)
  {
    forall t | t in givers ensures InHand(n, givers[t], t) {
      assert InHand(m, givers[t], t);
      if Holding(givers[t]) {
        assert givers[t].p in m - {p};
      }
    }
  }

  lemma FoundKept(m: Mem, p: Ptr, n: Mem, o: Owner)
    requires o.Walking? ==> Found(m, o) && m - {p} == n - {p}
    requires p in m ==> !m[p].at.AtChain? && !m[p].at.AtFound?
    ensures Found(n, o)
  {
    if o.Walking? {
      ChainKept(m, p, n, o.cur, o.rest, OwnerWalk);
      if o.found.Some? {
        assert o.found.value in m - {p};
      }
    }
  }

  /** The lists differ at most by `p` at the top. */
  ghost predicate Near(x: seq<Ptr>, y: seq<Ptr>, p: Ptr) {
    x == y || y == x + [p] || (x != [] && Last(x) == p && y == Front(x))
  }

  /** What was where it was said to be still is, when only `p` moved. */
  lemma CompleteKept(s: State, p: Ptr, r: State)
    requires Complete(s) && s.m - {p} == r.m - {p}
    requires p in r.m ==> Placed(r, p, r.m[p].at)
    requires |s.free| == |r.free| && forall c | 0 <= c < |s.free| :: Near(s.free[c], r.free[c], p)
    requires Near(s.home.list, r.home.list, p)
    requires Near(RestOf(s.owner), RestOf(r.owner), p)
    requires Near(EndRest(s.closing), EndRest(r.closing), p)
    requires FoundOf(s.owner) == FoundOf(r.owner) || FoundOf(s.owner).None? || FoundOf(s.owner).value == p
    requires s.out - {p} == r.out - {p}
    requires forall t, q | q != p && InGiver(s.givers, t, q) :: InGiver(r.givers, t, q)
    ensures Complete(r)
  {
    forall q | q in r.m && q != p ensures Placed(r, q, r.m[q].at) {
      assert q in r.m - {p};
      assert Placed(s, q, s.m[q].at);
      if s.m[q].at.AtOut? {
        assert q in s.out - {p};
      } else if s.m[q].at.AtGiver? {
        assert InGiver(s.givers, s.m[q].at.t, q);
      }
    }
  }

  // ----- lists losing and gaining one buffer

  lemma ShelfPopped(m: Mem, free: seq<seq<Ptr>>, c: nat, n: Mem)
    requires Shelved(m, free) && c < |CLASSES| && free[c] != []
    requires m - {Last(free[c])} == n - {Last(free[c])}
    ensures Is(m, Last(free[c]), AtFree(c, |free[c]| - 1)) && m[Last(free[c])].layout == ClassLayout(c)
    ensures Shelved(n, free[c := Front(free[c])])
  {
    var p := Last(free[c]);
    assert Shelf(m, free[c], c) && Kept(m, free[c], c, |free[c]| - 1);
    var less := free[c := Front(free[c])];
    forall d, i | 0 <= d < |CLASSES| && 0 <= i < |less[d]| ensures Kept(n, less[d], d, i) {
      assert Shelf(m, free[d], d) && Kept(m, free[d], d, i);
      assert free[d][i] in m - {p};
    }
  }

  lemma ShelfPushed(m: Mem, free: seq<seq<Ptr>>, c: nat, p: Ptr, n: Mem)
    requires Shelved(m, free) && c < |CLASSES| && m - {p} == n - {p}
    requires p in m ==> !m[p].at.AtFree?
    requires Is(n, p, AtFree(c, |free[c]|)) && n[p].layout == ClassLayout(c)
    ensures Shelved(n, free[c := free[c] + [p]])
  {
    ShelfKept(m, p, n, free);
    var more := free[c := free[c] + [p]];
    forall d, i | 0 <= d < |CLASSES| && 0 <= i < |more[d]| ensures Kept(n, more[d], d, i) {
      assert Shelf(n, free[d], d);
      if i < |free[d]| {
        assert Kept(n, free[d], d, i);
      }
    }
  }

  lemma ChainPopped(m: Mem, nodes: seq<Ptr>, chain: Chain, n: Mem)
    requires nodes != [] && Chained(m, Some(Last(nodes)), nodes, chain)
    requires m - {Last(nodes)} == n - {Last(nodes)}
    ensures Is(m, Last(nodes), AtChain(chain, |nodes| - 1)) && m[Last(nodes)].back.Some?
    ensures Fits(m[Last(nodes)], m[Last(nodes)].back.value.tag)
    ensures Chained(n, m[Last(nodes)].back.value.next, Front(nodes), chain)
  {
    var p := Last(nodes);
    assert Node(m, nodes, chain, |nodes| - 1);
    forall i | 0 <= i < |nodes| - 1 ensures Node(n, Front(nodes), chain, i) {
      assert Node(m, nodes, chain, i);
      assert nodes[i] in m - {p};
    }
  }

  lemma ChainPushed(m: Mem, top: Option<Ptr>, nodes: seq<Ptr>, chain: Chain, p: Ptr, n: Mem)
    requires Chained(m, top, nodes, chain) && m - {p} == n - {p}
    requires p in m ==> !m[p].at.AtChain?
    requires Is(n, p, AtChain(chain, |nodes|)) && n[p].back.Some? && n[p].back.value.next == top
    requires Fits(n[p], n[p].back.value.tag)
    ensures Chained(n, Some(p), nodes + [p], chain)
  {
    ChainKept(m, p, n, top, nodes, chain);
    forall i | 0 <= i < |nodes| + 1 ensures Node(n, nodes + [p], chain, i) {
      if i < |nodes| {
        assert Node(n, nodes, chain, i);
      }
    }
  }

  // ----- Spatial, step by step

  /** The steps that move no buffer. */
  lemma SpatialFrame(s: State, r: State)
    requires Spatial(s)
    requires r.m == s.m && r.free == s.free && r.home.list == s.home.list && r.home.head == s.home.head
             && r.out == s.out
    requires r.owner == s.owner || (!r.owner.Walking? && RestOf(s.owner) == [] && FoundOf(s.owner).None?)
    requires r.closing == s.closing || (!r.closing.CloseWalk? && EndRest(s.closing) == [])
    requires Hands(r.m, r.givers)
    requires forall t, q | InGiver(s.givers, t, q) :: InGiver(r.givers, t, q)
    ensures Spatial(r)
  {
    forall p | p in r.m ensures Placed(r, p, r.m[p].at) {
      assert Placed(s, p, s.m[p].at);
      if s.m[p].at.AtGiver? {
        assert InGiver(s.givers, s.m[p].at.t, p);
      }
    }
  }

  /** Only the buffer `p` moved, and not among the chains. */
  lemma SpatialMove(s: State, p: Ptr, r: State)
    requires Spatial(s) && s.m - {p} == r.m - {p}
    requires p in s.m ==> !s.m[p].at.AtChain? && !s.m[p].at.AtFound?
    requires r.home.list == s.home.list && r.home.head == s.home.head && r.closing == s.closing
    requires r.owner == s.owner || (!s.owner.Walking? && !r.owner.Walking?)
    requires Shelved(r.m, r.free) && forall c | 0 <= c < |s.free| :: Near(s.free[c], r.free[c], p)
    requires Outs(r.m, r.out) && s.out - {p} == r.out - {p}
    requires Hands(r.m, r.givers) && forall t, q | q != p && InGiver(s.givers, t, q) :: InGiver(r.givers, t, q)
    requires p in r.m ==> Placed(r, p, r.m[p].at)
    ensures Spatial(r)
  {
    ChainKept(s.m, p, r.m, s.home.head, s.home.list, List);
    if s.closing.CloseWalk? {
      ChainKept(s.m, p, r.m, s.closing.cur, s.closing.rest, HomeWalk);
    }
    FoundKept(s.m, p, r.m, r.owner);
    CompleteKept(s, p, r);
  }

  // ----- counting references and bytes

  lemma CardLess<K, V>(m: map<K, V>, k: K)
    requires k in m
    ensures |m - {k}| == |m| - 1
  {
    assert (m - {k})[k := m[k]] == m;
  }

  lemma BytesFreed(m: Mem, p: Ptr)
    requires p in m
    ensures Total(Layouts(m)) == m[p].layout.size + Total(Layouts(m - {p}))
  {
    TotalRemove(Layouts(m), p);
    assert Layouts(m - {p}) == Layouts(m) - {p};
  }

  lemma BytesMoved(m: Mem, p: Ptr, a: Alloc)
    requires p in m && a.layout == m[p].layout
    ensures Layouts(m[p := a]) == Layouts(m)
  {
  }

  lemma BytesMade(m: Mem, p: Ptr, a: Alloc)
    requires p !in m
    ensures Total(Layouts(m[p := a])) == Total(Layouts(m)) + a.layout.size
  {
    TotalAdd(Layouts(m), p, a.layout);
    assert Layouts(m[p := a]) == Layouts(m)[p := a.layout];
  }

  // ----- the rest of the invariant, step by step

  /** What the shelves promise about the buffer on top of one. */
  ghost predicate OnTop(s: State, c: nat) {
    && c < |CLASSES| && |s.free| == |CLASSES| && s.free[c] != []
    && var p := Last(s.free[c]);
       p in s.m && s.m[p].at.AtFree? && s.m[p].layout == ClassLayout(c) && p !in s.out
  }

  lemma GetRest(s: State, c: nat)
    requires Rest(s) && s.owner.Idle? && c < |CLASSES| && |s.free| == |CLASSES|
    requires s.free[c] != [] ==> OnTop(s, c)
    ensures Rest(DoGet(s, c))
  {
    if s.free[c] != [] {
      var p := Last(s.free[c]);
      BytesMoved(s.m, p, DoGet(s, c).m[p]);
    }
  }

  lemma LoadRest(s: State)
    requires Rest(s) && s.owner.Loading?
    ensures Rest(DoLoad(s))
  {
  }

  lemma SwapRest(s: State)
    requires Rest(s) && s.owner.Swapping?
    ensures Rest(DoSwap(s))
  {
    var r := DoSwap(s);
    assert Layouts(r.m) == Layouts(s.m);
    assert r.m.Keys == s.m.Keys;
    assert AllInUse(s.m) ==> r.m == s.m;
  }

  /** What the chain promises about its top node. */
  ghost predicate TopNode(m: Mem, cur: Option<Ptr>, chain: Chain) {
    cur.Some? ==>
      && cur.value in m && m[cur.value].at.AtChain? && m[cur.value].at.chain == chain
      && m[cur.value].back.Some? && Fits(m[cur.value], m[cur.value].back.value.tag)
  }

  lemma WalkEndRest(s: State)
    requires Rest(s) && s.owner.Walking? && |s.free| == |CLASSES| && s.owner.cur.None?
    requires s.owner.found.Some? ==>
               s.owner.found.value in s.m && s.m[s.owner.found.value].at.AtFound? && s.owner.found.value !in s.out
    ensures Rest(DoWalk(s))
  {
    if s.owner.found.Some? {
      BytesMoved(s.m, s.owner.found.value, DoWalk(s).m[s.owner.found.value]);
    }
  }

  /** A turn of the walk that leaves the ledger exact; a node to visit means something is idle. */
  lemma WalkOnRest(s: State, r: State)
    requires Rest(s) && s.owner.Walking? && !AllInUse(s.m)
    requires r == s.(m := r.m, free := r.free, owner := r.owner, books := s.books.(charged := r.books.charged))
    requires r.owner.Walking? && r.owner.want == s.owner.want && (r.owner.found.Some? ==> r.owner.want.Class?)
    requires r.books.charged <= s.books.charged
    requires r.books.charged + Total(Layouts(s.m)) == s.books.charged + Total(Layouts(r.m))
    ensures Rest(r)
  {
  }

  lemma WalkFreeRest(s: State)
    requires Rest(s) && s.owner.Walking? && |s.free| == |CLASSES|
    requires s.owner.cur.Some? && TopNode(s.m, s.owner.cur, OwnerWalk)
    requires s.m[s.owner.cur.value].back.value.tag.cls == WHOLE
    ensures Rest(DoWalk(s))
  {
    BytesFreed(s.m, s.owner.cur.value);
    WalkOnRest(s, DoWalk(s));
  }

  lemma WalkKeepRest(s: State)
    requires Rest(s) && s.owner.Walking? && |s.free| == |CLASSES|
    requires s.owner.cur.Some? && TopNode(s.m, s.owner.cur, OwnerWalk)
    requires s.m[s.owner.cur.value].back.value.tag.cls != WHOLE
    ensures Rest(DoWalk(s))
  {
    var p := s.owner.cur.value;
    BytesMoved(s.m, p, DoWalk(s).m[p]);
    WalkOnRest(s, DoWalk(s));
  }

  /** A step of the owner's own: its program counter and its books. */
  lemma OwnerRest(s: State, r: State)
    requires Rest(s) && r == s.(owner := r.owner, books := r.books)
    requires Up(s.owner) && Up(r.owner) && OwnerRefs(s.owner) == OwnerRefs(r.owner) && !s.unflushed
    requires !OwnerLooks(s.owner) && !s.owner.Raising? && !s.owner.Popping?
    requires !OwnerLooks(r.owner) && !r.owner.Raising?
    requires Pc(r.owner, false, r.books) && Ledger(s.m, r.books, r.owner)
    ensures Rest(r)
  {
  }

  lemma MakeFitsRest(s: State)
    requires Rest(s) && s.owner.Making? && |s.free| == |CLASSES|
    requires s.books.charged < TWO_64 && s.owner.size < TWO_64 && Guarded(s, Make)
    requires FitsCap(s.books.cap, s.books.charged, s.owner.size)
    ensures Rest(DoMake(s))
  {
    assert s.books.charged + s.owner.size <= s.books.cap;
    OwnerRest(s, DoMake(s));
  }

  lemma MakeNoneRest(s: State)
    requires Rest(s) && s.owner.Making? && |s.free| == |CLASSES| && s.books.charged < TWO_64 && s.owner.size < TWO_64
    requires !FitsCap(s.books.cap, s.books.charged, s.owner.size) && IdleClass(s.free).None?
    ensures Rest(DoMake(s))
  {
  }

  lemma MakeFreeRest(s: State)
    requires Rest(s) && s.owner.Making? && |s.free| == |CLASSES| && s.books.charged < TWO_64 && s.owner.size < TWO_64
    requires !FitsCap(s.books.cap, s.books.charged, s.owner.size)
    requires IdleClass(s.free).Some? && OnTop(s, IdleClass(s.free).value)
    ensures Rest(DoMake(s))
  {
    BytesFreed(s.m, Last(s.free[IdleClass(s.free).value]));
  }

  lemma GrantRest(s: State, grant: Option<Ptr>)
    requires Rest(s) && s.owner.Granting?
    requires grant.Some? ==> grant.value !in s.m && grant.value !in s.out
    ensures Rest(DoGrant(s, grant))
  {
    if grant.Some? {
      var made := Alloc(ReturnedLayout(TagFor(s.owner.want)), None, AtOut);
      assert DoGrant(s, grant).m == s.m[grant.value := made];
      BytesMade(s.m, grant.value, made);
    }
  }

  lemma TakeBackRest(s: State, p: Ptr)
    requires Rest(s) && s.owner.Idle? && |s.free| == |CLASSES|
    requires p in s.out && p in s.m && s.m[p].at.AtOut? && Fits(s.m[p], s.out[p])
    ensures Rest(DoTakeBack(s, p))
  {
    CardLess(s.out, p);
    if s.out[p].cls == WHOLE {
      BytesFreed(s.m, p);
    } else {
      BytesMoved(s.m, p, DoTakeBack(s, p).m[p]);
    }
  }

  /** A wake loop, or a look that found the flag down, ends. */
  lemma FinishRest(s: State, after: After)
    requires Rest(s)
    requires (s.owner.Noting? && after.DropBuf?) || s.owner == Lowering(after) || s.owner == Popping(after, None)
    requires if s.owner.Popping? then s.home.waiters == [] else !s.home.waiting && !s.unflushed
    ensures Rest(Finish(s, after))
  {
  }

  lemma NoteRest(s: State)
    requires Rest(s) && s.owner.Noting?
    ensures Rest(DoNote(s))
  {
    assert Touch(s) == s;
    if !s.home.waiting && !s.unflushed {
      FinishRest(s, DropBuf);
    }
  }

  lemma WaitRest(s: State, w: Waker)
    requires Rest(s) && s.owner.Idle?
    ensures Rest(DoWait(s, w))
  {
    if s.m == map[] {
      assert Layouts(s.m) == map[];
    }
  }

  lemma RaiseRest(s: State)
    requires Rest(s) && s.owner.Raising?
    ensures Rest(s.(unflushed := true, owner := Fencing))
  {
  }

  lemma FenceRest(s: State)
    requires Rest(s) && s.owner.Fencing? && !s.unflushed
    ensures Rest(s.(owner := Looking))
  {
  }

  lemma FlushRest(s: State)
    requires Rest(s) && s.unflushed
    ensures Rest(s.(home := s.home.(waiting := true), unflushed := false))
  {
  }

  lemma LookRest(s: State)
    requires Rest(s) && s.owner.Looking? && |s.free| == |CLASSES|
    requires s.home.head.None? ==> s.home.list == []
    requires Complete(s)
    ensures Rest(DoLook(s))
  {
    if IdleClass(s.free).None? && s.home.head.None? {
      forall p | p in s.m ensures s.m[p].at.AtOut? || s.m[p].at.AtGiver? {
        assert Placed(s, p, s.m[p].at);
      }
    }
  }

  lemma LowerRest(s: State)
    requires Rest(s) && s.owner.Lowering? && !s.unflushed
    ensures Rest(DoLower(s))
  {
    assert Touch(s) == s;
    if !s.home.waiting {
      FinishRest(s, s.owner.after);
    }
  }

  lemma PoppedOne(h: Home)
    requires h.asked == h.popped + h.waiters && h.waiters != []
    ensures var r := PopOne(h); r.asked == r.popped + r.waiters
  {
    assert h.waiters == [h.waiters[0]] + h.waiters[1..];
  }

  /** A turn of the owner's wake loop. */
  lemma LoopRest(s: State, r: State)
    requires Rest(s) && s.owner.Popping? && r == s.(home := r.home, owner := r.owner)
    requires r.owner.Popping? && r.owner.after == s.owner.after
    requires r.home == s.home.(waiters := r.home.waiters, popped := r.home.popped, woken := r.home.woken)
    requires r.home.asked == r.home.popped + r.home.waiters
    ensures Rest(r)
  {
  }

  lemma PopRest(s: State)
    requires Rest(s) && s.owner.Popping?
    ensures Rest(DoPop(s))
  {
    assert Touch(s) == s;
    if s.owner.hand.None? && s.home.waiters == [] {
      FinishRest(s, s.owner.after);
    } else {
      if s.owner.hand.None? {
        PoppedOne(s.home);
      }
      LoopRest(s, DoPop(s));
    }
  }

  lemma ReserveRest(s: State, n: nat)
    requires Rest(s) && s.owner.Idle? && Guarded(s, Reserve(n))
    ensures Rest(DoReserve(s, n))
  {
  }

  lemma UnreserveRest(s: State, n: nat)
    requires Rest(s) && s.owner.Idle?
    ensures Rest(DoUnreserve(s, n))
  {
  }

  lemma HoldToRest(s: State, n: nat)
    requires Rest(s) && s.owner.Idle? && n <= USIZE_MAX
    ensures Rest(DoHoldTo(s, n))
  {
  }

  lemma DrainRest(s: State)
    requires Rest(s) && s.owner.Draining? && |s.free| == |CLASSES|
    requires IdleClass(s.free).Some? ==> OnTop(s, IdleClass(s.free).value)
    ensures Rest(DoDrain(s))
  {
  }

  /** A giver's step that leaves it in the crew. */
  lemma GiverOn(s: State, t: Tid, g: Giver, r: State)
    requires Rest(s) && t in s.givers
    requires r == s.(givers := s.givers[t := g], m := r.m, home := r.home)
    requires Layouts(r.m) == Layouts(s.m) && (s.m != map[] ==> r.m != map[])
    requires r.home == s.home.(head := r.home.head, list := r.home.list)
    requires !s.givers[t].Waking? && !s.givers[t].Clearing? && !g.Waking?
    requires WillLook(s.givers[t]) ==> WillLook(g)
    requires WillLook(g) || (AllInUse(s.m) ==> AllInUse(r.m))
    requires s.closing.Open? || r.home.list == []
    ensures Rest(r)
  {
    assert forall u | u in s.givers && u != t :: u in r.givers && r.givers[u] == s.givers[u];
    assert t in r.givers;
  }

  /** A giver leaves: after a look that found the flag down, or a queue that ran empty. */
  lemma GiverDoneRest(s: State, t: Tid)
    requires Rest(s) && t in s.givers
    requires s.givers[t].Checking? || s.givers[t].Clearing? ==> !s.home.waiting
    requires s.givers[t].Waking? ==> s.givers[t].hand.None? && s.home.waiters == []
    ensures Rest(GiverDone(s, t))
  {
    CardLess(s.givers, t);
    var r := GiverDone(s, t);
    assert forall u | u in s.givers && u != t :: u in r.givers && r.givers[u] == s.givers[u];
  }

  lemma CheckRest(s: State, t: Tid)
    requires Rest(s) && t in s.givers && s.givers[t].Checking?
    ensures Rest(DoCheck(s, t))
  {
    assert Touch(s) == s;
    if s.home.waiting {
      GiverOn(s, t, Clearing, DoCheck(s, t));
    } else {
      GiverDoneRest(s, t);
    }
  }

  lemma ClearRest(s: State, t: Tid)
    requires Rest(s) && t in s.givers && s.givers[t].Clearing?
    ensures Rest(DoClear(s, t))
  {
    assert Touch(s) == s;
    if s.home.waiting {
      assert t in DoClear(s, t).givers;
    } else {
      GiverDoneRest(s, t);
    }
  }

  lemma WakeRest(s: State, t: Tid)
    requires Rest(s) && t in s.givers && s.givers[t].Waking?
    ensures Rest(DoWake(s, t))
  {
    assert Touch(s) == s;
    var r := DoWake(s, t);
    if s.givers[t].hand.None? && s.home.waiters == [] {
      GiverDoneRest(s, t);
    } else {
      if s.givers[t].hand.None? {
        PoppedOne(s.home);
      }
      hide PopOne, CallOne;
      LoopKeeps(s.home);
      assert t in r.givers && r.givers[t].Waking?;
      assert forall u | u in s.givers && u != t :: u in r.givers && r.givers[u] == s.givers[u];
    }
  }

  lemma GiveRest(s: State, t: Tid, p: Ptr)
    requires Rest(s) && t !in s.givers && p in s.out && p in s.m && s.m[p].at.AtOut?
    ensures Rest(DoGive(s, t, p))
  {
    CardLess(s.out, p);
    var r := DoGive(s, t, p);
    BytesMoved(s.m, p, r.m[p]);
    assert forall u | u in s.givers :: u in r.givers && r.givers[u] == s.givers[u];
  }

  lemma ReadRest(s: State, t: Tid)
    requires Rest(s) && t in s.givers && s.givers[t].Reading?
    ensures Rest(DoRead(s, t))
  {
    GiverOn(s, t, DoRead(s, t).givers[t], DoRead(s, t));
  }

  lemma WriteRest(s: State, t: Tid)
    requires Rest(s) && t in s.givers && s.givers[t].Writing?
    requires s.givers[t].p in s.m
    ensures Rest(DoWrite(s, t))
  {
    var p := s.givers[t].p;
    BytesMoved(s.m, p, DoWrite(s, t).m[p]);
    GiverOn(s, t, DoWrite(s, t).givers[t], DoWrite(s, t));
  }

  lemma CasRest(s: State, t: Tid, spurious: bool)
    requires Rest(s) && t in s.givers && s.givers[t].Trying?
    requires s.givers[t].p in s.m
    ensures Rest(DoCas(s, t, spurious))
  {
    var p := s.givers[t].p;
    var r := DoCas(s, t, spurious);
    BytesMoved(s.m, p, r.m[p]);
    GiverOn(s, t, r.givers[t], r);
  }

  lemma EndRest1(s: State)
    requires Rest(s) && !s.closing.Open?
    requires s.closing.CloseLoad? && s.home.head.None? ==> s.home.list == []
    ensures s.closing.CloseLoad? ==> Rest(s.(closing := if s.home.head.None? then Closed else CloseSwap))
    ensures s.closing.CloseSwap? ==> Rest(DoEndSwap(s))
  {
  }

  lemma EndWalkRest(s: State)
    requires Rest(s) && s.closing.CloseWalk? && TopNode(s.m, s.closing.cur, HomeWalk)
    ensures Rest(DoEndWalk(s))
  {
  }

  // ----- where every allocation is, step by step

  lemma OutsMore(m: Mem, p: Ptr, n: Mem, out: map<Ptr, Tag>, tag: Tag)
    requires Outs(m, out) && m - {p} == n - {p}
    requires p in m ==> !m[p].at.AtOut?
    requires Is(n, p, AtOut) && Fits(n[p], tag)
    ensures Outs(n, out[p := tag]) && p !in out && out - {p} == out[p := tag] - {p}
  {
    OutsKept(m, p, n, out);
    assert p !in out;
  }

  lemma OutsLess(m: Mem, p: Ptr, n: Mem, out: map<Ptr, Tag>)
    requires Outs(m, out) && m - {p} == n - {p}
    ensures Outs(n, out - {p}) && out - {p} == (out - {p}) - {p}
  {
    forall q | q in out - {p} ensures Is(n, q, AtOut) && Fits(n[q], out[q]) {
      assert Is(m, q, AtOut) && q in m - {p};
    }
  }

  lemma SpatialUnshelve(s: State, c: nat, r: State)
    requires Spatial(s) && c < |CLASSES| && s.free[c] != []
    requires r.free == s.free[c := Front(s.free[c])] && r.home == s.home && r.closing == s.closing
             && r.givers == s.givers
    requires !s.owner.Walking? && !r.owner.Walking?
    requires var p := Last(s.free[c]);
             || (r.m == s.m - {p} && r.out == s.out)
             || (p in s.m && r.m == s.m[p := Alloc(s.m[p].layout, None, AtOut)]
               && r.out == s.out[p := TagFor(Class(c))])
    ensures Spatial(r)
  {
    var p := Last(s.free[c]);
    assert s.m - {p} == r.m - {p};
    ShelfPopped(s.m, s.free, c, r.m);
    if p in r.m {
      OutsMore(s.m, p, r.m, s.out, TagFor(Class(c)));
    } else {
      OutsKept(s.m, p, r.m, s.out);
    }
    HandsKept(s.m, p, r.m, s.givers);
    SpatialMove(s, p, r);
  }

  lemma OnTops(s: State, c: nat)
    requires Shelved(s.m, s.free) && Outs(s.m, s.out) && c < |CLASSES| && s.free[c] != []
    ensures OnTop(s, c)
  {
    ShelfPopped(s.m, s.free, c, s.m);
  }

  lemma GetStep(s: State, c: nat)
    requires Base(s) && s.owner.Idle? && c < |CLASSES|
    ensures Base(DoGet(s, c))
  {
    if s.free[c] == [] {
      SpatialFrame(s, DoGet(s, c));
    } else {
      OnTops(s, c);
      SpatialUnshelve(s, c, DoGet(s, c));
    }
    GetRest(s, c);
  }

  // the list taken whole

  lemma MovedOne(m: Mem, chain: Chain, p: Ptr)
    requires p in m && !(m[p].at.AtChain? && m[p].at.chain == List)
    ensures p in Moved(m, chain) && Moved(m, chain)[p] == m[p]
  {
  }

  lemma MovedShelves(m: Mem, chain: Chain, free: seq<seq<Ptr>>)
    requires Shelved(m, free)
    ensures Shelved(Moved(m, chain), free)
  {
    forall c, i | 0 <= c < |CLASSES| && 0 <= i < |free[c]| ensures Kept(Moved(m, chain), free[c], c, i) {
      assert Shelf(m, free[c], c) && Kept(m, free[c], c, i);
    }
  }

  lemma MovedOuts(m: Mem, chain: Chain, out: map<Ptr, Tag>, givers: map<Tid, Giver>)
    requires Outs(m, out) && Hands(m, givers)
    ensures Outs(Moved(m, chain), out) && Hands(Moved(m, chain), givers)
  {
    forall p | p in out ensures Is(Moved(m, chain), p, AtOut) && Fits(Moved(m, chain)[p], out[p]) {
      MovedOne(m, chain, p);
    }
    forall t | t in givers ensures InHand(Moved(m, chain), givers[t], t) {
      assert InHand(m, givers[t], t);
      if Holding(givers[t]) {
        MovedOne(m, chain, givers[t].p);
      }
    }
  }

  lemma MovedChain(m: Mem, top: Option<Ptr>, nodes: seq<Ptr>, chain: Chain)
    requires Chained(m, top, nodes, List)
    ensures Chained(Moved(m, chain), top, nodes, chain)
  {
    forall i | 0 <= i < |nodes| ensures Node(Moved(m, chain), nodes, chain, i) {
      assert Node(m, nodes, List, i);
    }
  }

  lemma SwapSpatial(s: State)
    requires Spatial(s) && s.owner.Swapping? && s.closing.Open?
    ensures Spatial(DoSwap(s))
  {
    var r := DoSwap(s);
    MovedShelves(s.m, OwnerWalk, s.free);
    MovedOuts(s.m, OwnerWalk, s.out, s.givers);
    MovedChain(s.m, s.home.head, s.home.list, OwnerWalk);
    forall p | p in r.m ensures Placed(r, p, r.m[p].at) {
      assert Placed(s, p, s.m[p].at);
    }
  }

  lemma EndSwapSpatial(s: State)
    requires Spatial(s) && s.owner.Gone? && s.closing.CloseSwap?
    ensures Spatial(DoEndSwap(s))
  {
    var r := DoEndSwap(s);
    MovedShelves(s.m, HomeWalk, s.free);
    MovedOuts(s.m, HomeWalk, s.out, s.givers);
    MovedChain(s.m, s.home.head, s.home.list, HomeWalk);
    forall p | p in r.m ensures Placed(r, p, r.m[p].at) {
      assert Placed(s, p, s.m[p].at);
    }
  }

  // the walk

  lemma TopNodes(m: Mem, cur: Option<Ptr>, rest: seq<Ptr>, chain: Chain)
    requires Chained(m, cur, rest, chain)
    ensures TopNode(m, cur, chain)
    ensures cur.Some? ==> rest != [] && cur.value == Last(rest) && m[cur.value].at == AtChain(chain, |rest| - 1)
  {
    if cur.Some? {
      assert Node(m, rest, chain, |rest| - 1);
    }
  }

  /** The walk's top buffer goes where `r` says: to the allocator, into the owner's hand, or on a shelf. */
  lemma WalkOnSpatial(s: State, r: State)
    requires Spatial(s) && s.owner.Walking? && s.owner.cur.Some? && r.owner.Walking?
    requires r.home == s.home && r.closing == s.closing && r.givers == s.givers && r.out == s.out && s.closing.Open?
    requires Shelved(r.m, r.free) && Found(r.m, r.owner.(cur := None, rest := []))
    requires var p := s.owner.cur.value;
             && TopNode(s.m, s.owner.cur, OwnerWalk) && s.m - {p} == r.m - {p}
             && r.owner == s.owner.(cur := s.m[p].back.value.next, rest := Front(s.owner.rest), found := r.owner.found)
             && (r.owner.found == s.owner.found || s.owner.found.None?)
             && (forall c | 0 <= c < |s.free| :: Near(s.free[c], r.free[c], p))
             && (p in r.m ==> Placed(r, p, r.m[p].at))
    ensures Spatial(r)
  {
    var p := s.owner.cur.value;
    TopNodes(s.m, s.owner.cur, s.owner.rest, OwnerWalk);
    ChainPopped(s.m, s.owner.rest, OwnerWalk, r.m);
    ChainKept(s.m, p, r.m, s.home.head, s.home.list, List);
    OutsKept(s.m, p, r.m, s.out);
    HandsKept(s.m, p, r.m, s.givers);
    CompleteKept(s, p, r);
  }

  lemma WalkFreeSpatial(s: State)
    requires Spatial(s) && Shelved(s.m, s.free) && Found(s.m, s.owner) && s.owner.Walking? && ValidWant(s.owner.want)
             && s.closing.Open?
    requires s.owner.cur.Some? && TopNode(s.m, s.owner.cur, OwnerWalk)
    requires s.m[s.owner.cur.value].back.value.tag.cls == WHOLE
    ensures Spatial(DoWalk(s))
  {
    hide Spatial;
    var r := DoWalk(s);
    assert r.m == s.m - {s.owner.cur.value} && r.free == s.free;
    ShelfKept(s.m, s.owner.cur.value, r.m, s.free);
    WalkOnSpatial(s, r);
  }

  lemma WalkKeepSpatial(s: State)
    requires Spatial(s) && Shelved(s.m, s.free) && Found(s.m, s.owner) && s.owner.Walking? && ValidWant(s.owner.want)
             && s.closing.Open?
    requires s.owner.cur.Some? && TopNode(s.m, s.owner.cur, OwnerWalk)
    requires s.m[s.owner.cur.value].back.value.tag.cls != WHOLE
    ensures Spatial(DoWalk(s))
  {
    hide Spatial;
    var p := s.owner.cur.value;
    var c := s.m[p].back.value.tag.cls;
    var r := DoWalk(s);
    assert s.m - {p} == r.m - {p};
    if s.owner.found.None? && s.owner.want == Class(c) {
      ShelfKept(s.m, p, r.m, s.free);
    } else {
      ShelfPushed(s.m, s.free, c, p, r.m);
    }
    WalkOnSpatial(s, r);
  }

  lemma WalkEndSpatial(s: State)
    requires Spatial(s) && s.owner.Walking? && s.owner.cur.None? && s.owner.found.Some? && ValidWant(s.owner.want)
    ensures Spatial(DoWalk(s))
  {
    var p := s.owner.found.value;
    var r := DoWalk(s);
    ShelfKept(s.m, p, r.m, s.free);
    ChainKept(s.m, p, r.m, s.home.head, s.home.list, List);
    OutsMore(s.m, p, r.m, s.out, TagFor(s.owner.want));
    HandsKept(s.m, p, r.m, s.givers);
    if s.closing.CloseWalk? {
      ChainKept(s.m, p, r.m, s.closing.cur, s.closing.rest, HomeWalk);
    }
    CompleteKept(s, p, r);
  }

  lemma WalkStep(s: State)
    requires Base(s) && s.owner.Walking?
    ensures Base(DoWalk(s))
  {
    TopNodes(s.m, s.owner.cur, s.owner.rest, OwnerWalk);
    if s.owner.cur.Some? {
      if s.m[s.owner.cur.value].back.value.tag.cls == WHOLE {
        WalkFreeSpatial(s);
        WalkFreeRest(s);
      } else {
        WalkKeepSpatial(s);
        WalkKeepRest(s);
      }
    } else {
      if s.owner.found.Some? {
        WalkEndSpatial(s);
      } else {
        SpatialFrame(s, DoWalk(s));
      }
      WalkEndRest(s);
    }
  }

  /** A step of the owner's that moves no buffer. */
  lemma OwnerSpatial(s: State, r: State)
    requires Spatial(s) && !s.owner.Walking? && !r.owner.Walking? && s.closing.Open?
    requires r == s.(owner := r.owner, books := r.books, home := r.home, unflushed := r.unflushed,
                     refs := r.refs, closing := r.closing, fault := r.fault)
    requires r.home.head == s.home.head && r.home.list == s.home.list
    requires r.closing.Open? || r.closing.CloseLoad?
    ensures Spatial(r)
  {
    SpatialFrame(s, r);
  }

  lemma MakeFitsSpatial(s: State)
    requires Spatial(s) && s.owner.Making? && s.closing.Open? && |s.free| == |CLASSES|
    requires s.books.charged < TWO_64 && s.owner.size < TWO_64 && FitsCap(s.books.cap, s.books.charged, s.owner.size)
    ensures Spatial(DoMake(s))
  {
    hide Spatial;
    OwnerSpatial(s, DoMake(s));
  }

  lemma MakeSpatial(s: State)
    requires Spatial(s) && s.owner.Making? && s.closing.Open? && |s.free| == |CLASSES|
    requires s.books.charged < TWO_64 && s.owner.size < TWO_64
    ensures Spatial(DoMake(s))
  {
    hide Spatial;
    if FitsCap(s.books.cap, s.books.charged, s.owner.size) {
      MakeFitsSpatial(s);
    } else if IdleClass(s.free).None? {
      OwnerSpatial(s, DoMake(s));
    } else {
      SpatialUnshelve(s, IdleClass(s.free).value, DoMake(s));
    }
  }

  lemma MakeRest(s: State)
    requires Rest(s) && s.owner.Making? && |s.free| == |CLASSES| && s.books.charged < TWO_64 && s.owner.size < TWO_64
    requires Guarded(s, Make)
    requires IdleClass(s.free).Some? ==> OnTop(s, IdleClass(s.free).value)
    ensures Rest(DoMake(s))
  {
    if FitsCap(s.books.cap, s.books.charged, s.owner.size) {
      MakeFitsRest(s);
    } else if IdleClass(s.free).Some? {
      MakeFreeRest(s);
    } else {
      MakeNoneRest(s);
    }
  }

  lemma MakeStep(s: State)
    requires Base(s) && Enabled(s, Make) && Guarded(s, Make)
    ensures Base(DoMake(s))
  {
    MakeSpatial(s);
    if IdleClass(s.free).Some? {
      OnTops(s, IdleClass(s.free).value);
    }
    MakeRest(s);
  }

  lemma DrainStep(s: State)
    requires Base(s) && s.owner.Draining?
    ensures Base(DoDrain(s))
  {
    if IdleClass(s.free).Some? {
      var c := IdleClass(s.free).value;
      OnTops(s, c);
      SpatialUnshelve(s, c, DoDrain(s));
    } else {
      SpatialFrame(s, DoDrain(s));
    }
    DrainRest(s);
  }

  lemma GrantSpatial(s: State, p: Ptr)
    requires Spatial(s) && s.owner.Granting? && ValidWant(s.owner.want) && p !in s.m
    ensures Spatial(DoGrant(s, Some(p)))
  {
    var r := DoGrant(s, Some(p));
    assert s.m - {p} == r.m - {p};
    ShelfKept(s.m, p, r.m, s.free);
    OutsMore(s.m, p, r.m, s.out, TagFor(s.owner.want));
    HandsKept(s.m, p, r.m, s.givers);
    SpatialMove(s, p, r);
  }

  lemma GrantStep(s: State, grant: Option<Ptr>)
    requires Base(s) && s.owner.Granting? && (grant.Some? ==> grant.value !in s.m)
    ensures Base(DoGrant(s, grant))
  {
    if grant.Some? {
      GrantSpatial(s, grant.value);
    } else {
      SpatialFrame(s, DoGrant(s, grant));
    }
    GrantRest(s, grant);
  }

  lemma TakeBackShelves(m: Mem, p: Ptr, tag: Tag, n: Mem, free: seq<seq<Ptr>>, more: seq<seq<Ptr>>)
    requires Shelved(m, free) && p in m && m[p].at.AtOut? && Fits(m[p], tag)
    requires if tag.cls == WHOLE then n == m - {p} && more == free
             else n == Put(m, p, AtFree(tag.cls, |free[tag.cls]|)) && more == free[tag.cls := free[tag.cls] + [p]]
    ensures m - {p} == n - {p} && Shelved(n, more) && forall c | 0 <= c < |free| :: Near(free[c], more[c], p)
  {
    assert m - {p} == n - {p};
    if tag.cls == WHOLE {
      ShelfKept(m, p, n, free);
    } else {
      ShelfPushed(m, free, tag.cls, p, n);
    }
  }

  lemma TakeBackSpatial(s: State, p: Ptr)
    requires Spatial(s) && Shelved(s.m, s.free) && Outs(s.m, s.out) && Hands(s.m, s.givers) && s.owner.Idle?
             && p in s.out
    ensures Spatial(DoTakeBack(s, p))
  {
    hide Spatial, Hands;
    var r := DoTakeBack(s, p);
    TakeBackShelves(s.m, p, s.out[p], r.m, s.free, r.free);
    OutsLess(s.m, p, r.m, s.out);
    HandsKept(s.m, p, r.m, s.givers);
    SpatialMove(s, p, r);
  }

  lemma TakeBackStep(s: State, p: Ptr)
    requires Base(s) && s.owner.Idle? && p in s.out
    ensures Base(DoTakeBack(s, p))
  {
    TakeBackSpatial(s, p);
    TakeBackRest(s, p);
  }

  // the givers

  lemma HandsMore(m: Mem, t: Tid, g: Giver, n: Mem, givers: map<Tid, Giver>)
    requires Holding(g) && Hands(m, givers) && (t in givers ==> Holding(givers[t]) && givers[t].p == g.p)
    requires m - {g.p} == n - {g.p} && InHand(n, g, t)
    requires t !in givers ==> g.p in m && !m[g.p].at.AtGiver?
    ensures Hands(n, givers[t := g])
  {
    forall u | u in givers && u != t ensures InHand(n, givers[u], u) {
      assert InHand(m, givers[u], u);
      assert t in givers ==> InHand(m, givers[t], t);
      if Holding(givers[u]) {
        assert givers[u].p in m - {g.p};
      }
    }
  }

  lemma HandsLess(m: Mem, t: Tid, g: Giver, n: Mem, givers: map<Tid, Giver>)
    requires t in givers && Holding(givers[t]) && Hands(m, givers) && m - {givers[t].p} == n - {givers[t].p}
    requires !Holding(g)
    ensures Hands(n, givers[t := g])
  {
    forall u | u in givers && u != t ensures InHand(n, givers[u], u) {
      assert InHand(m, givers[u], u) && InHand(m, givers[t], t);
      if Holding(givers[u]) {
        assert givers[u].p in m - {givers[t].p};
      }
    }
  }

  lemma GiveSpatial(s: State, t: Tid, p: Ptr)
    requires Spatial(s) && t !in s.givers && p in s.out
    ensures Spatial(DoGive(s, t, p))
  {
    var r := DoGive(s, t, p);
    assert s.m - {p} == r.m - {p};
    ShelfKept(s.m, p, r.m, s.free);
    OutsLess(s.m, p, r.m, s.out);
    HandsMore(s.m, t, r.givers[t], r.m, s.givers);
    SpatialMove(s, p, r);
  }

  lemma GiveStep(s: State, t: Tid, p: Ptr)
    requires Base(s) && t !in s.givers && p in s.out
    ensures Base(DoGive(s, t, p))
  {
    GiveSpatial(s, t, p);
    GiveRest(s, t, p);
  }

  /** A giver's step that keeps its buffer in its hand. */
  lemma HandSpatial(s: State, t: Tid, g: Giver, r: State)
    requires Spatial(s) && t in s.givers && Holding(s.givers[t])
    requires Holding(g) && g.p == s.givers[t].p && s.m - {g.p} == r.m - {g.p} && InHand(r.m, g, t)
    requires r == s.(m := r.m, givers := s.givers[t := g], fault := r.fault)
    ensures Spatial(r)
  {
    assert InHand(s.m, s.givers[t], t);
    ShelfKept(s.m, g.p, r.m, s.free);
    OutsKept(s.m, g.p, r.m, s.out);
    HandsMore(s.m, t, g, r.m, s.givers);
    SpatialMove(s, g.p, r);
  }

  lemma ReadStep(s: State, t: Tid)
    requires Base(s) && t in s.givers && s.givers[t].Reading?
    ensures Base(DoRead(s, t))
  {
    assert InHand(s.m, s.givers[t], t);
    HandSpatial(s, t, DoRead(s, t).givers[t], DoRead(s, t));
    ReadRest(s, t);
  }

  lemma WriteStep(s: State, t: Tid)
    requires Base(s) && t in s.givers && s.givers[t].Writing?
    ensures Base(DoWrite(s, t))
  {
    assert InHand(s.m, s.givers[t], t);
    HandSpatial(s, t, DoWrite(s, t).givers[t], DoWrite(s, t));
    WriteRest(s, t);
  }

  /** The exchange that publishes: the head is what the giver linked to, whoever was there between. */
  lemma CasSpatial(s: State, t: Tid)
    requires Spatial(s) && t in s.givers && s.givers[t].Trying? && s.home.head == s.givers[t].seen
    ensures Spatial(DoCas(s, t, false))
  {
    var p := s.givers[t].p;
    var r := DoCas(s, t, false);
    assert InHand(s.m, s.givers[t], t);
    assert s.m - {p} == r.m - {p};
    ShelfKept(s.m, p, r.m, s.free);
    OutsKept(s.m, p, r.m, s.out);
    HandsLess(s.m, t, Checking, r.m, s.givers);
    ChainPushed(s.m, s.home.head, s.home.list, List, p, r.m);
    FoundKept(s.m, p, r.m, s.owner);
    if s.closing.CloseWalk? {
      ChainKept(s.m, p, r.m, s.closing.cur, s.closing.rest, HomeWalk);
    }
    CompleteKept(s, p, r);
  }

  lemma CasStep(s: State, t: Tid, spurious: bool)
    requires Base(s) && t in s.givers && s.givers[t].Trying?
    ensures Base(DoCas(s, t, spurious))
  {
    assert InHand(s.m, s.givers[t], t);
    if s.home.head == s.givers[t].seen && !spurious {
      CasSpatial(s, t);
    } else {
      HandSpatial(s, t, DoCas(s, t, spurious).givers[t], DoCas(s, t, spurious));
    }
    CasRest(s, t, spurious);
  }

  /** A giver past its push changes nothing about where buffers are. */
  lemma PushedSpatial(s: State, t: Tid, r: State)
    requires Spatial(s) && t in s.givers && !Holding(s.givers[t]) && s.closing.Open?
    requires r == s.(givers := r.givers, home := r.home, refs := r.refs, closing := r.closing, fault := r.fault)
    requires r.home == s.home.(waiting := r.home.waiting, waiters := r.home.waiters, popped := r.home.popped,
                               woken := r.home.woken)
    requires r.closing.Open? || r.closing.CloseLoad?
    requires r.givers == s.givers - {t} || (t in r.givers && r.givers == s.givers[t := r.givers[t]]
             && !Holding(r.givers[t]))
    ensures Spatial(r)
  {
    SpatialFrame(s, r);
  }

  /** Something allocated is somewhere. */
  lemma Somewhere(s: State)
    requires Spatial(s)
    ensures s.m != map[] ==>
              || s.out != map[] || s.givers != map[] || FoundOf(s.owner).Some? || IdleClass(s.free).Some?
              || s.home.list != [] || RestOf(s.owner) != [] || EndRest(s.closing) != []
  {
    if p :| p in s.m {
      assert Placed(s, p, s.m[p].at);
    }
  }

  lemma PushedStep(s: State, t: Tid)
    requires Base(s) && t in s.givers && !Holding(s.givers[t])
    ensures s.givers[t].Checking? ==> Base(DoCheck(s, t))
    ensures s.givers[t].Clearing? ==> Base(DoClear(s, t))
    ensures s.givers[t].Waking? ==> Base(DoWake(s, t))
  {
    hide Spatial;
    assert s.closing.Open? by {
      CardLess(s.givers, t);
    }
    match s.givers[t]
    case Checking => PushedSpatial(s, t, DoCheck(s, t)); CheckRest(s, t);
    case Clearing => PushedSpatial(s, t, DoClear(s, t)); ClearRest(s, t);
    case Waking(_) => PushedSpatial(s, t, DoWake(s, t)); WakeRest(s, t);
  }

  // the home's drop

  lemma EndWalkSpatial(s: State)
    requires Spatial(s) && s.closing.CloseWalk? && s.closing.cur.Some? && s.owner.Gone?
    ensures Spatial(DoEndWalk(s))
  {
    var p := s.closing.cur.value;
    var r := DoEndWalk(s);
    TopNodes(s.m, s.closing.cur, s.closing.rest, HomeWalk);
    ChainPopped(s.m, s.closing.rest, HomeWalk, r.m);
    ShelfKept(s.m, p, r.m, s.free);
    ChainKept(s.m, p, r.m, s.home.head, s.home.list, List);
    OutsKept(s.m, p, r.m, s.out);
    HandsKept(s.m, p, r.m, s.givers);
    CompleteKept(s, p, r);
  }

  lemma EndStep(s: State)
    requires Base(s)
    ensures s.closing.CloseLoad? ==> Base(s.(closing := if s.home.head.None? then Closed else CloseSwap))
    ensures s.closing.CloseSwap? ==> Base(DoEndSwap(s))
    ensures s.closing.CloseWalk? ==> Base(DoEndWalk(s))
  {
    if !s.closing.Open? {
      EndRest1(s);
    }
    if s.closing.CloseLoad? {
      SpatialFrame(s, s.(closing := if s.home.head.None? then Closed else CloseSwap));
    } else if s.closing.CloseSwap? {
      EndSwapSpatial(s);
    } else if s.closing.CloseWalk? {
      TopNodes(s.m, s.closing.cur, s.closing.rest, HomeWalk);
      if s.closing.cur.Some? {
        EndWalkSpatial(s);
      } else {
        SpatialFrame(s, DoEndWalk(s));
      }
      EndWalkRest(s);
    }
  }

  // ----- every step

  lemma GetWholeStep(s: State, n: nat)
    requires Base(s) && s.owner.Idle? && WholeSize(n)
    ensures Base(s.(owner := Loading(Whole(n))))
  {
    hide Spatial;
    OwnerSpatial(s, s.(owner := Loading(Whole(n))));
    OwnerRest(s, s.(owner := Loading(Whole(n))));
  }

  lemma LoadStep(s: State)
    requires Base(s) && s.owner.Loading?
    ensures Base(DoLoad(s))
  {
    hide Spatial;
    OwnerSpatial(s, DoLoad(s));
    LoadRest(s);
  }

  lemma SwapStep(s: State)
    requires Base(s) && s.owner.Swapping?
    ensures Base(DoSwap(s))
  {
    hide Spatial;
    SwapSpatial(s);
    SwapRest(s);
  }

  lemma OwnerStep(s: State, a: Action)
    requires Base(s) && Enabled(s, a) && Guarded(s, a)
    requires a.Get? || a.GetWhole? || a.Load? || a.Swap? || a.Walk? || a.Make? || a.Grant? || a.TakeBack?
    ensures Base(Apply(s, a))
  {
    hide Base, DoGet, DoLoad, DoSwap, DoWalk, DoMake, DoGrant, DoTakeBack;
    match a
    case Get(c) => GetStep(s, c);
    case GetWhole(n) => GetWholeStep(s, n);
    case Load => LoadStep(s);
    case Swap => SwapStep(s);
    case Walk => WalkStep(s);
    case Make => MakeStep(s);
    case Grant(g) => GrantStep(s, g);
    case TakeBack(p) => TakeBackStep(s, p);
  }

  predicate Handshake(a: Action) {
    a.Note? || a.Wait? || a.Raise? || a.Fence? || a.Look? || a.Lower? || a.Pop? || a.Flush?
  }

  lemma WaitingSpatial(s: State, a: Action)
    requires Spatial(s) && Enabled(s, a) && s.closing.Open? && (s.unflushed ==> s.owner.Fencing?)
    requires a.Wait? || a.Raise? || a.Fence? || a.Look? || a.Flush?
    ensures Spatial(Apply(s, a))
  {
    hide Spatial;
    OwnerSpatial(s, Apply(s, a));
  }

  lemma FinishSpatial(s: State, after: After)
    requires Spatial(s) && !s.owner.Walking? && s.closing.Open?
    ensures Spatial(Finish(s, after))
  {
    hide Spatial;
    OwnerSpatial(s, Finish(s, after));
  }

  lemma WakingSpatial(s: State, a: Action)
    requires Spatial(s) && Enabled(s, a) && s.closing.Open? && (a.Note? || a.Lower? || a.Pop?)
    ensures Spatial(Apply(s, a))
  {
    hide Spatial, Finish, PopOne, CallOne;
    var after := if a.Note? then DropBuf else s.owner.after;
    assert Touch(s) == s;
    if Apply(s, a) == Finish(s, after) {
      FinishSpatial(s, after);
    } else {
      LoopKeeps(s.home);
      OwnerSpatial(s, Apply(s, a));
    }
  }

  lemma LoopKeeps(h: Home)
    ensures h.waiters != [] ==> PopOne(h).head == h.head && PopOne(h).list == h.list
    ensures forall w :: CallOne(h, w).head == h.head && CallOne(h, w).list == h.list
  {
  }

  lemma HandshakeRest(s: State, a: Action)
    requires Base(s) && Enabled(s, a) && Handshake(a)
    ensures Rest(Apply(s, a)) && s.closing.Open? && (s.unflushed ==> s.owner.Fencing?)
  {
    assert Rest(s) && Complete(s) && (s.home.head.None? ==> s.home.list == []);
    hide Spatial, Complete, Rest, DoNote, DoWait, DoLook, DoLower, DoPop;
    OwnerUp(s);
    match a
    case Note => NoteRest(s);
    case Wait(w) => WaitRest(s, w);
    case Raise => RaiseRest(s);
    case Fence => FenceRest(s);
    case Look => LookRest(s);
    case Lower => LowerRest(s);
    case Pop => PopRest(s);
    case Flush => FlushRest(s);
  }

  /** A pool in use holds its home open. */
  lemma OwnerUp(s: State)
    requires Rest(s)
    ensures !s.owner.Gone? ==> s.closing.Open?
    ensures s.unflushed ==> s.owner.Fencing?
  {
  }

  lemma HandshakeStep(s: State, a: Action)
    requires Base(s) && Enabled(s, a) && Handshake(a)
    ensures Base(Apply(s, a))
  {
    hide Spatial, Rest, Enabled, Apply;
    HandshakeRest(s, a);
    if a.Note? || a.Lower? || a.Pop? {
      WakingSpatial(s, a);
    } else {
      WaitingSpatial(s, a);
    }
  }

  lemma BooksSpatial(s: State, a: Action)
    requires Spatial(s) && Enabled(s, a) && s.closing.Open?
    requires a.Reserve? || a.Unreserve? || a.HoldTo? || a.Drop?
    ensures Spatial(Apply(s, a))
  {
    hide Spatial, DoUnreserve, LeavesRoom;
    if a.Unreserve? {
      UnreserveSpatial(s, a.bytes);
    } else {
      OwnerSpatial(s, Apply(s, a));
    }
  }

  lemma UnreserveSpatial(s: State, n: nat)
    requires Spatial(s) && s.owner.Idle? && s.closing.Open?
    ensures Spatial(DoUnreserve(s, n))
  {
    hide Spatial;
    OwnerSpatial(s, DoUnreserve(s, n));
  }

  lemma BooksStep(s: State, a: Action)
    requires Base(s) && Enabled(s, a) && Guarded(s, a)
    requires a.Reserve? || a.Unreserve? || a.HoldTo? || a.Drop? || a.Drain?
    ensures Base(Apply(s, a))
  {
    hide Base, Spatial, Rest, DoReserve, DoUnreserve, DoHoldTo, DoDrain;
    if a.Drain? {
      DrainStep(s);
    } else {
      BooksRest(s, a);
      BooksSpatial(s, a);
      InvParts(Apply(s, a));
    }
  }

  lemma InvParts(s: State)
    ensures Base(s) <==> Spatial(s) && Rest(s)
  {
    hide Spatial, Rest;
  }

  lemma BooksRest(s: State, a: Action)
    requires Base(s) && Enabled(s, a) && Guarded(s, a) && (a.Reserve? || a.Unreserve? || a.HoldTo? || a.Drop?)
    ensures Spatial(s) && Rest(Apply(s, a)) && s.closing.Open?
  {
    hide Spatial;
    match a
    case Reserve(n) => ReserveRest(s, n);
    case Unreserve(n) => UnreserveRest(s, n);
    case HoldTo(n) => HoldToRest(s, n);
    case Drop =>
  }

  lemma GiverStep(s: State, a: Action)
    requires Base(s) && Enabled(s, a)
    requires a.Give? || a.Read? || a.Write? || a.Cas? || a.Check? || a.Clear? || a.Wake?
    ensures Base(Apply(s, a))
  {
    hide Base, DoGive, DoRead, DoWrite, DoCas, DoCheck, DoClear, DoWake;
    match a
    case Give(t, p) => GiveStep(s, t, p);
    case Read(t) => ReadStep(s, t);
    case Write(t) => WriteStep(s, t);
    case Cas(t, spurious) => CasStep(s, t, spurious);
    case Check(t) => PushedStep(s, t);
    case Clear(t) => PushedStep(s, t);
    case Wake(t) => PushedStep(s, t);
  }

  lemma ClosingStep(s: State, a: Action)
    requires Base(s) && Enabled(s, a) && (a.EndLoad? || a.EndSwap? || a.EndWalk?)
    ensures Base(Apply(s, a))
  {
    hide Base, DoEndSwap, DoEndWalk;
    EndStep(s);
  }

  lemma BaseStep(s: State, a: Action)
    requires Base(s) && Enabled(s, a) && Guarded(s, a)
    ensures Base(Apply(s, a))
  {
    hide Base, Enabled, Apply, Guarded;
    if a.Get? || a.GetWhole? || a.Load? || a.Swap? || a.Walk? || a.Make? || a.Grant? || a.TakeBack? {
      OwnerStep(s, a);
    } else if Handshake(a) {
      HandshakeStep(s, a);
    } else if a.Reserve? || a.Unreserve? || a.HoldTo? || a.Drop? || a.Drain? {
      BooksStep(s, a);
    } else if a.EndLoad? || a.EndSwap? || a.EndWalk? {
      ClosingStep(s, a);
    } else {
      GiverStep(s, a);
    }
  }

  // ----- wakers in hand

  lemma HandsPick(givers: map<Tid, Giver>) returns (u: Tid)
    requires givers != map[]
    ensures u in givers && GiverHands(givers) == Just(GiverHand(givers[u])) + GiverHands(givers - {u})
  {
    u :| u in givers && GiverHands(givers) == Just(GiverHand(givers[u])) + GiverHands(givers - {u});
  }

  lemma {:induction false} HandsRemove(givers: map<Tid, Giver>, t: Tid)
    requires t in givers
    ensures GiverHands(givers) == Just(GiverHand(givers[t])) + GiverHands(givers - {t})
    decreases |givers|
  {
    hide GiverHands, Just, GiverHand;
    var u := HandsPick(givers);
    if u != t {
      HandsRemove(givers - {u}, t);
      HandsRemove(givers - {t}, u);
      assert givers - {u} - {t} == givers - {t} - {u};
      Commute(Just(GiverHand(givers[u])), Just(GiverHand(givers[t])), GiverHands(givers - {u} - {t}));
    }
  }

  lemma Commute(a: multiset<Waker>, b: multiset<Waker>, c: multiset<Waker>)
    ensures a + (b + c) == b + (a + c)
  {
  }

  lemma HandsUpdate(givers: map<Tid, Giver>, t: Tid, g: Giver)
    ensures GiverHands(givers[t := g]) == Just(GiverHand(g)) + GiverHands(givers - {t})
  {
    HandsRemove(givers[t := g], t);
    assert givers[t := g] - {t} == givers - {t};
  }

  /** A giver that comes, goes or moves on with empty hands leaves what is in hand as it was. */
  lemma HandsSame(givers: map<Tid, Giver>, t: Tid, g: Giver)
    requires t in givers ==> GiverHand(givers[t]).None?
    requires GiverHand(g).None?
    ensures GiverHands(givers[t := g]) == GiverHands(givers) == GiverHands(givers - {t})
  {
    HandsUpdate(givers, t, g);
    if t in givers {
      HandsRemove(givers, t);
    } else {
      assert givers - {t} == givers;
    }
  }

  lemma TookOne(popped: seq<Waker>, woken: seq<Waker>, givers: map<Tid, Giver>, w: Waker)
    requires Told(popped, woken, None, givers)
    ensures Told(popped + [w], woken, Some(w), givers)
  {
    assert multiset(popped + [w]) == multiset(popped) + multiset{w};
  }

  lemma CalledOne(popped: seq<Waker>, woken: seq<Waker>, givers: map<Tid, Giver>, w: Waker)
    requires Told(popped, woken, Some(w), givers)
    ensures Told(popped, woken + [w], None, givers)
  {
    assert multiset(woken + [w]) == multiset(woken) + multiset{w};
  }

  /** The step takes no waker, calls none, and has the same givers on. */
  ghost predicate SameHands(s: State, r: State) {
    && r.home.popped == s.home.popped && r.home.woken == s.home.woken
    && OwnerHand(r.owner) == OwnerHand(s.owner) && r.givers == s.givers
  }

  ghost predicate Lowers(s: State, r: State) {
    r.books.charged <= s.books.charged
  }

  /** The step moves no buffer, charges nothing, and takes and calls no waker. */
  ghost predicate Calm(s: State, r: State) {
    r.m == s.m && Lowers(s, r) && SameHands(s, r)
  }

  lemma WaitsCalm(s: State, a: Action)
    requires Enabled(s, a) && (a.Wait? || a.Raise? || a.Fence? || a.Flush? || a.Look?)
    ensures Calm(s, Apply(s, a))
  {
    hide IdleClass;
  }

  lemma UnrefCalm(s: State)
    ensures Calm(s, Unref(s)) && Unref(s).owner == s.owner
  {
  }

  lemma FinishCalm(s: State, after: After)
    requires OwnerHand(s.owner).None?
    ensures Calm(s, Finish(s, after))
  {
    hide Unref;
    UnrefCalm(s.(owner := Idle));
    UnrefCalm(s.(owner := Gone));
  }

  lemma LooksCalm(s: State, a: Action)
    requires Enabled(s, a) && (a.Note? || a.Lower?)
    ensures Calm(s, Apply(s, a))
  {
    hide Finish;
    FinishCalm(Touch(s), if a.Note? then DropBuf else s.owner.after);
  }

  lemma UnreserveCalm(s: State, n: nat)
    ensures Calm(s, DoUnreserve(s, n))
  {
  }

  lemma BooksCalm(s: State, a: Action)
    requires Enabled(s, a) && (a.Reserve? || a.Unreserve? || a.HoldTo? || a.Drop? || a.EndLoad?)
    ensures Calm(s, Apply(s, a))
  {
    hide DoUnreserve, LeavesRoom;
    if a.Unreserve? {
      UnreserveCalm(s, a.bytes);
    }
  }

  lemma AsksCalm(s: State, a: Action)
    requires Enabled(s, a) && (a.GetWhole? || a.Load?)
    ensures Calm(s, Apply(s, a))
  {
  }

  lemma FreedHands(s: State, p: Ptr, l: Layout)
    ensures SameHands(s, Dealloc(s, p, l)) && Dealloc(s, p, l).books == s.books
  {
  }

  lemma ReleaseHands(s: State, n: nat)
    ensures Lowers(s, Release(s, n)) && SameHands(s, Release(s, n)) && Release(s, n).owner == s.owner
  {
  }

  lemma HandOutHands(s: State, p: Ptr, tag: Tag)
    requires OwnerHand(s.owner).None?
    ensures SameHands(s, HandOut(s, p, tag)) && HandOut(s, p, tag).books == s.books
  {
  }

  lemma GetHands(s: State, c: nat)
    requires s.owner.Idle? && |s.free| == |CLASSES| && c < |CLASSES|
    ensures Lowers(s, DoGet(s, c)) && SameHands(s, DoGet(s, c))
  {
    hide HandOut;
    if s.free[c] != [] {
      HandOutHands(s.(free := s.free[c := Front(s.free[c])]), Last(s.free[c]), TagFor(Class(c)));
    }
  }

  lemma GrantHands(s: State, grant: Option<Ptr>)
    requires s.owner.Granting? && ValidWant(s.owner.want)
    ensures Lowers(s, DoGrant(s, grant)) && SameHands(s, DoGrant(s, grant))
  {
    hide HandOut, Release;
    var tag := TagFor(s.owner.want);
    if grant.Some? {
      HandOutHands(s.(m := s.m[grant.value := Alloc(ReturnedLayout(tag), None, AtOut)]), grant.value, tag);
    } else {
      ReleaseHands(s, tag.cap);
    }
  }

  lemma TakeBackHands(s: State, p: Ptr)
    requires Enabled(s, TakeBack(p))
    ensures Lowers(s, DoTakeBack(s, p)) && SameHands(s, DoTakeBack(s, p))
  {
    hide Dealloc, Release, Put;
    var tag := s.out[p];
    var on := s.(out := s.out - {p}, owner := Noting);
    FreedHands(on, p, WholeLayout(tag.cap));
    ReleaseHands(Dealloc(on, p, WholeLayout(tag.cap)), tag.cap);
  }

  lemma OwnerHands(s: State, a: Action)
    requires Enabled(s, a) && (a.Get? || a.Swap? || a.Grant? || a.TakeBack?)
    ensures Lowers(s, Apply(s, a)) && SameHands(s, Apply(s, a))
  {
    hide Moved, DoGet, DoGrant, DoTakeBack;
    match a
    case Get(c) => GetHands(s, c);
    case Grant(g) => GrantHands(s, g);
    case TakeBack(p) => TakeBackHands(s, p);
    case Swap =>
  }

  lemma WalkHands(s: State)
    requires Enabled(s, Walk)
    ensures Lowers(s, DoWalk(s)) && SameHands(s, DoWalk(s))
  {
    hide Put, ValidTag, Dealloc, Release, HandOut, Front;
    var o := s.owner;
    if o.cur.Some? && o.cur.value in s.m && s.m[o.cur.value].back.Some? {
      var back := s.m[o.cur.value].back.value;
      var on := s.(owner := o.(cur := back.next, rest := Front(o.rest)));
      FreedHands(on, o.cur.value, WholeLayout(back.tag.cap));
      ReleaseHands(Dealloc(on, o.cur.value, WholeLayout(back.tag.cap)), back.tag.cap);
    }
    if o.found.Some? {
      HandOutHands(s, o.found.value, TagFor(o.want));
    }
  }

  lemma FreeTopHands(s: State, c: nat)
    requires |s.free| == |CLASSES| && c < |CLASSES| && s.free[c] != []
    ensures SameHands(s, FreeTop(s, c)) && FreeTop(s, c).books == s.books && FreeTop(s, c).owner == s.owner
  {
  }

  lemma EndWalkHands(s: State)
    requires s.closing.CloseWalk?
    ensures Lowers(s, DoEndWalk(s)) && SameHands(s, DoEndWalk(s))
  {
    hide ValidTag, Dealloc, Front;
    var k := s.closing;
    if k.cur.Some? && k.cur.value in s.m && s.m[k.cur.value].back.Some? && ValidTag(s.m[k.cur.value].back.value.tag) {
      var back := s.m[k.cur.value].back.value;
      FreedHands(s.(closing := CloseWalk(back.next, Front(k.rest))), k.cur.value, ReturnedLayout(back.tag));
    }
  }

  lemma EndHands(s: State, a: Action)
    requires Enabled(s, a) && (a.Drain? || a.EndSwap? || a.EndWalk?)
    ensures Lowers(s, Apply(s, a)) && SameHands(s, Apply(s, a))
  {
    hide Moved, IdleClass, FreeTop, DoEndWalk;
    if a.EndWalk? {
      EndWalkHands(s);
    } else if IdleClass(s.free).Some? {
      FreeTopHands(s, IdleClass(s.free).value);
    }
  }

  lemma ChargedHands(s: State)
    requires Enabled(s, Make)
    ensures SameHands(s, Charged(s))
  {
    hide WrappingAdd, SaturatingAdd;
  }

  lemma MakeHands(s: State)
    requires Enabled(s, Make)
    ensures SameHands(s, DoMake(s))
    ensures !FitsCap(s.books.cap, s.books.charged, s.owner.size) ==> Lowers(s, DoMake(s))
  {
    hide FreeTop, IdleClass, FitsCap, Charged, Release;
    ChargedHands(s);
    if IdleClass(s.free).Some? {
      FreeTopHands(s, IdleClass(s.free).value);
      ReleaseHands(FreeTop(s, IdleClass(s.free).value), CLASSES[IdleClass(s.free).value]);
    }
  }

  /** A giver's step before its wake loop: it moves on or leaves, with empty hands. */
  ghost predicate MovesOn(s: State, t: Tid, r: State) {
    && r.home.popped == s.home.popped && r.home.woken == s.home.woken && r.owner == s.owner && Lowers(s, r)
    && (t in s.givers ==> GiverHand(s.givers[t]).None?)
    && (r.givers == s.givers - {t}
        || (t in r.givers && GiverHand(r.givers[t]).None? && r.givers == s.givers[t := r.givers[t]]))
  }

  lemma PushMoves(s: State, a: Action)
    requires Enabled(s, a) && (a.Give? || a.Read? || a.Write? || a.Cas?)
    ensures MovesOn(s, a.t, Apply(s, a))
  {
    hide Put;
  }

  lemma LookMoves(s: State, a: Action)
    requires Enabled(s, a) && (a.Check? || a.Clear?)
    ensures MovesOn(s, a.t, Apply(s, a))
  {
    hide Unref;
    UnrefCalm(Touch(s).(givers := s.givers - {a.t}));
  }

  lemma PopTold(s: State)
    requires s.owner.Popping? && Told(s.home.popped, s.home.woken, s.owner.hand, s.givers)
    ensures var r := DoPop(s); Told(r.home.popped, r.home.woken, OwnerHand(r.owner), r.givers)
  {
    hide Finish;
    hide Told;
    if s.owner.hand.Some? {
      CalledOne(s.home.popped, s.home.woken, s.givers, s.owner.hand.value);
    } else if s.home.waiters == [] {
      FinishCalm(Touch(s), s.owner.after);
    } else {
      TookOne(s.home.popped, s.home.woken, s.givers, s.home.waiters[0]);
    }
  }

  lemma GiverTook(popped: seq<Waker>, woken: seq<Waker>, hand: Option<Waker>, givers: map<Tid, Giver>, t: Tid, w: Waker)
    requires t in givers && GiverHand(givers[t]).None? && Told(popped, woken, hand, givers)
    ensures Told(popped + [w], woken, hand, givers[t := Waking(Some(w))])
  {
    hide GiverHands;
    HandsRemove(givers, t);
    HandsUpdate(givers, t, Waking(Some(w)));
    assert multiset(popped + [w]) == multiset(popped) + multiset{w};
  }

  lemma GiverCalled(popped: seq<Waker>, woken: seq<Waker>, hand: Option<Waker>, givers: map<Tid, Giver>, t: Tid,
                    w: Waker)
    requires t in givers && givers[t] == Waking(Some(w)) && Told(popped, woken, hand, givers)
    ensures Told(popped, woken + [w], hand, givers[t := Waking(None)])
  {
    hide GiverHands;
    HandsRemove(givers, t);
    HandsUpdate(givers, t, Waking(None));
    assert multiset(woken + [w]) == multiset(woken) + multiset{w};
  }

  lemma WakeTold(s: State, t: Tid)
    requires t in s.givers && s.givers[t].Waking? && Told(s.home.popped, s.home.woken, OwnerHand(s.owner), s.givers)
    ensures var r := DoWake(s, t); Told(r.home.popped, r.home.woken, OwnerHand(r.owner), r.givers)
  {
    hide Told, Unref;
    var h, hand := s.home, OwnerHand(s.owner);
    if s.givers[t].hand.Some? {
      GiverCalled(h.popped, h.woken, hand, s.givers, t, s.givers[t].hand.value);
    } else if h.waiters == [] {
      UnrefCalm(Touch(s).(givers := s.givers - {t}));
      GiverTold(s, t, DoWake(s, t));
    } else {
      GiverTook(h.popped, h.woken, hand, s.givers, t, h.waiters[0]);
    }
  }

  lemma ToldStep(s: State, a: Action)
    requires Enabled(s, a) && Told(s.home.popped, s.home.woken, OwnerHand(s.owner), s.givers)
    ensures var r := Apply(s, a); Told(r.home.popped, r.home.woken, OwnerHand(r.owner), r.givers)
  {
    hide Enabled, Apply, Told, GiverHands;
    if a.Pop? {
      AppliedLoop(s, a);
      PopTold(s);
    } else if a.Wake? {
      AppliedLoop(s, a);
      WakeTold(s, a.t);
    } else if a.Give? || a.Read? || a.Write? || a.Cas? {
      PushMoves(s, a);
      GiverTold(s, a.t, Apply(s, a));
    } else if a.Check? || a.Clear? {
      LookMoves(s, a);
      GiverTold(s, a.t, Apply(s, a));
    } else {
      OthersHands(s, a);
    }
  }

  lemma AppliedLoop(s: State, a: Action)
    requires Enabled(s, a)
    ensures a.Pop? ==> s.owner.Popping? && Apply(s, a) == DoPop(s)
    ensures a.Wake? ==> a.t in s.givers && s.givers[a.t].Waking? && Apply(s, a) == DoWake(s, a.t)
  {
    hide DoPop, DoWake;
  }

  lemma GiverTold(s: State, t: Tid, r: State)
    requires Told(s.home.popped, s.home.woken, OwnerHand(s.owner), s.givers) && MovesOn(s, t, r)
    ensures Told(r.home.popped, r.home.woken, OwnerHand(r.owner), r.givers)
  {
    hide GiverHands;
    HandsSame(s.givers, t, if t in r.givers then r.givers[t] else Checking);
  }

  lemma OthersHands(s: State, a: Action)
    requires Enabled(s, a) && !a.Pop? && !a.Wake?
    requires !(a.Give? || a.Read? || a.Write? || a.Cas? || a.Check? || a.Clear?)
    ensures SameHands(s, Apply(s, a))
  {
    hide Enabled, Apply, SameHands;
    if a.Wait? || a.Raise? || a.Fence? || a.Flush? || a.Look? {
      WaitsCalm(s, a);
    } else if a.Note? || a.Lower? {
      LooksCalm(s, a);
    } else if a.Reserve? || a.Unreserve? || a.HoldTo? || a.Drop? || a.EndLoad? {
      BooksCalm(s, a);
    } else if a.GetWhole? || a.Load? {
      AsksCalm(s, a);
    } else if a.Get? || a.Swap? || a.Grant? || a.TakeBack? {
      OwnerHands(s, a);
    } else if a.Drain? || a.EndSwap? || a.EndWalk? {
      EndHands(s, a);
    } else {
      AppliedMoves(s, a);
      if a.Walk? {
        WalkHands(s);
      } else {
        MakeHands(s);
      }
    }
  }

  lemma AppliedMoves(s: State, a: Action)
    requires Enabled(s, a)
    ensures a.Walk? ==> Enabled(s, Walk) && Apply(s, a) == DoWalk(s)
    ensures a.Make? ==> Enabled(s, Make) && Apply(s, a) == DoMake(s)
  {
    hide DoWalk, DoMake;
  }

  /** Every step of every thread keeps the whole invariant. */
  lemma StepKeeps(s: State, a: Action)
    requires Inv(s) && Enabled(s, a) && Guarded(s, a)
    ensures Inv(Apply(s, a))
  {
    hide Base, Enabled, Apply, Guarded, Told;
    BaseStep(s, a);
    ToldStep(s, a);
  }

  lemma InitInv(cap: nat)
    requires cap <= USIZE_MAX
    ensures Inv(Init(cap))
  {
    InitBase(cap);
  }
}
