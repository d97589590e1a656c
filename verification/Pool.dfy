/** The buffer pool as its own thread uses it (src/buf/mod.rs), one call at a time: the ledger, the
    free lists, the returned buffers and the exact point at which a request is refused. */
module Pools {
  import opened Prelude
  import opened SizeClasses

  type Waker = nat

  /** Where an allocation is: on a free list, among the returned buffers, or out. */
  datatype Place = Free(cls: nat, i: nat) | Back(i: nat) | Out

  datatype Cell = Cell(layout: Layout, place: Place)

  type Mem = map<Ptr, Cell>

  /** A buffer as it is handed out and comes back. */
  datatype Buf = Buf(ptr: Ptr, tag: Tag)

  // ----- every allocation is in one place

  predicate FreeOk(m: Mem, cls: nat, list: seq<Ptr>)
    requires cls < |CLASSES|
  {
    forall i | 0 <= i < |list| :: list[i] in m && m[list[i]] == Cell(ClassLayout(cls), Free(cls, i))
  }

  predicate BackOk(m: Mem, back: seq<Buf>) {
    forall i | 0 <= i < |back| ::
      ValidTag(back[i].tag) && back[i].ptr in m && m[back[i].ptr] == Cell(ReturnedLayout(back[i].tag), Back(i))
  }

  predicate Somewhere(p: Ptr, place: Place, free: seq<seq<Ptr>>, back: seq<Buf>) {
    match place
    case Free(c, i) => c < |free| && i < |free[c]| && free[c][i] == p
    case Back(i) => i < |back| && back[i].ptr == p
    case Out => true
  }

  predicate Placed(m: Mem, free: seq<seq<Ptr>>, back: seq<Buf>) {
    && |free| == |CLASSES|
    && (forall c | 0 <= c < |CLASSES| :: FreeOk(m, c, free[c]))
    && BackOk(m, back)
    && (forall p | p in m :: Somewhere(p, m[p].place, free, back))
  }

  lemma PlacedShape(m: Mem, free: seq<seq<Ptr>>, back: seq<Buf>)
    requires Placed(m, free, back)
    ensures |free| == |CLASSES|
  {
  }

  function Moved(m: Mem, p: Ptr, place: Place): Mem
    requires p in m
  {
    m[p := m[p].(place := place)]
  }

  lemma PopFree(m: Mem, free: seq<seq<Ptr>>, back: seq<Buf>, c: nat)
    requires Placed(m, free, back) && c < |CLASSES| && free[c] != []
    ensures var list := free[c];
            var p := list[|list| - 1];
            && p in m && m[p] == Cell(ClassLayout(c), Free(c, |list| - 1))
            && Placed(Moved(m, p, Out), free[c := list[..|list| - 1]], back)
  {
    assert FreeOk(m, c, free[c]);
    var list := free[c];
    var p := list[|list| - 1];
    var n := Moved(m, p, Out);
    var after := free[c := list[..|list| - 1]];
    forall d | 0 <= d < |CLASSES| ensures FreeOk(n, d, after[d]) {
      assert FreeOk(m, d, free[d]);
    }
  }

  lemma PushFree(m: Mem, free: seq<seq<Ptr>>, back: seq<Buf>, c: nat, p: Ptr)
    requires Placed(m, free, back) && c < |CLASSES| && p in m && m[p] == Cell(ClassLayout(c), Out)
    ensures Placed(Moved(m, p, Free(c, |free[c]|)), free[c := free[c] + [p]], back)
  {
    var n := Moved(m, p, Free(c, |free[c]|));
    var after := free[c := free[c] + [p]];
    forall d | 0 <= d < |CLASSES| ensures FreeOk(n, d, after[d]) {
      assert FreeOk(m, d, free[d]);
    }
  }

  lemma PopBack(m: Mem, free: seq<seq<Ptr>>, back: seq<Buf>)
    requires Placed(m, free, back) && back != []
    ensures var b := back[|back| - 1];
            && ValidTag(b.tag) && b.ptr in m && m[b.ptr] == Cell(ReturnedLayout(b.tag), Back(|back| - 1))
            && Placed(Moved(m, b.ptr, Out), free, back[..|back| - 1])
  {
    var b := back[|back| - 1];
    var n := Moved(m, b.ptr, Out);
    forall d | 0 <= d < |CLASSES| ensures FreeOk(n, d, free[d]) {
      assert FreeOk(m, d, free[d]);
    }
  }

  lemma PushBack(m: Mem, free: seq<seq<Ptr>>, back: seq<Buf>, b: Buf)
    requires Placed(m, free, back) && ValidTag(b.tag) && b.ptr in m && m[b.ptr] == Cell(ReturnedLayout(b.tag), Out)
    ensures Placed(Moved(m, b.ptr, Back(|back|)), free, back + [b])
  {
    var n := Moved(m, b.ptr, Back(|back|));
    forall d | 0 <= d < |CLASSES| ensures FreeOk(n, d, free[d]) {
      assert FreeOk(m, d, free[d]);
    }
  }

  lemma DropOut(m: Mem, free: seq<seq<Ptr>>, back: seq<Buf>, p: Ptr)
    requires Placed(m, free, back) && p in m && m[p].place == Out
    ensures Placed(m - {p}, free, back)
  {
    forall d | 0 <= d < |CLASSES| ensures FreeOk(m - {p}, d, free[d]) {
      assert FreeOk(m, d, free[d]);
    }
  }

  lemma AddOut(m: Mem, free: seq<seq<Ptr>>, back: seq<Buf>, p: Ptr, l: Layout)
    requires Placed(m, free, back) && p !in m
    ensures Placed(m[p := Cell(l, Out)], free, back)
  {
    forall d | 0 <= d < |CLASSES| ensures FreeOk(m[p := Cell(l, Out)], d, free[d]) {
      assert FreeOk(m, d, free[d]);
    }
  }

  // ----- bytes

  ghost function Layouts(m: Mem): map<Ptr, Layout> {
    map p | p in m :: m[p].layout
  }

  /** The buffers out. */
  ghost function OutOf(m: Mem): map<Ptr, Layout> {
    map p | p in m && m[p].place.Out? :: m[p].layout
  }

  /** The buffers not on a free list. */
  ghost function BusyOf(m: Mem): map<Ptr, Layout> {
    map p | p in m && !m[p].place.Free? :: m[p].layout
  }

  lemma MovedBytes(m: Mem, p: Ptr, place: Place)
    requires p in m
    ensures Layouts(Moved(m, p, place)) == Layouts(m)
  {
  }

  /** Freeing one buffer takes exactly its bytes off the total. */
  lemma FreedBytes(m: Mem, p: Ptr)
    requires p in m
    ensures Total(Layouts(m - {p})) == Total(Layouts(m)) - m[p].layout.size
  {
    assert Layouts(m - {p}) == Layouts(m) - {p};
    TotalRemove(Layouts(m), p);
  }

  lemma AddedBytes(m: Mem, p: Ptr, c: Cell)
    requires p !in m
    ensures Total(Layouts(m[p := c])) == Total(Layouts(m)) + c.layout.size
  {
    assert Layouts(m[p := c]) == Layouts(m)[p := c.layout];
    TotalAdd(Layouts(m), p, c.layout);
  }

  predicate NoneFree(free: seq<seq<Ptr>>) {
    forall c | 0 <= c < |free| :: free[c] == []
  }

  /** The classes from `c` up gave all their idle buffers, those below none. */
  predicate FreedFrom(was: seq<seq<Ptr>>, now: seq<seq<Ptr>>, c: nat) {
    && |now| == |was|
    && (forall d | c <= d < |now| :: now[d] == [])
    && (forall d | 0 <= d < c && d < |now| :: now[d] == was[d])
  }

  /** The classes above `c` gave all their idle buffers, those below none, and `c` its last ones. */
  predicate FreedDownTo(was: seq<seq<Ptr>>, now: seq<seq<Ptr>>, c: nat) {
    && |now| == |was| && c < |now|
    && (forall d | c < d < |now| :: now[d] == [])
    && (forall d | 0 <= d < c :: now[d] == was[d])
    && now[c] <= was[c]
  }

  /** With the free lists empty every allocation is busy. */
  lemma AllBusy(m: Mem, free: seq<seq<Ptr>>, back: seq<Buf>)
    requires Placed(m, free, back) && NoneFree(free)
    ensures BusyOf(m) == Layouts(m)
    ensures back == [] ==> OutOf(m) == Layouts(m)
  {
    forall p | p in m ensures !m[p].place.Free? && (back == [] ==> m[p].place.Out?) {
      assert Somewhere(p, m[p].place, free, back);
    }
  }

  /** The busy buffers hold no more than all of them. */
  lemma BusyBytes(m: Mem)
    ensures Total(OutOf(m)) <= Total(BusyOf(m)) <= Total(Layouts(m))
  {
    TotalMonotone(OutOf(m), BusyOf(m));
    TotalMonotone(BusyOf(m), Layouts(m));
  }

  /** Handing a buffer out, or taking it back, changes what is out by that buffer. */
  lemma OutMoved(m: Mem, p: Ptr, place: Place)
    requires p in m
    ensures OutOf(Moved(m, p, place)) == if place.Out? then OutOf(m)[p := m[p].layout] else OutOf(m) - {p}
    ensures OutOf(m - {p}) == OutOf(m) - {p}
  {
  }

  lemma IdleFreed(m: Mem, p: Ptr)
    requires p in m && m[p].place.Free?
    ensures BusyOf(Moved(m, p, Out) - {p}) == BusyOf(m) && OutOf(Moved(m, p, Out) - {p}) == OutOf(m)
  {
  }

  /** With no buffer among the returned ones, the busy buffers are those out. */
  lemma BusyOut(m: Mem, free: seq<seq<Ptr>>)
    requires Placed(m, free, [])
    ensures BusyOf(m) == OutOf(m)
  {
    forall p | p in m ensures !m[p].place.Back? {
      assert Somewhere(p, m[p].place, free, []);
    }
  }

  /** What was out, and one buffer more, fit in what is held. */
  lemma HandedFits(out: map<Ptr, Layout>, p: Ptr, l: Layout, m: Mem)
    requires p !in out && OutOf(m) == out[p := l]
    ensures Total(out) + l.size <= Total(Layouts(m))
  {
    TotalAdd(out, p, l);
    BusyBytes(m);
  }

  // ----- the allocator

  /** The allocator, as far as the pool's memory goes. */
  class Heap {
    ghost var live: Mem
    var next: Ptr
    /** How often it had no memory. */
    ghost var failures: nat

    ghost predicate Valid()
      reads this
    {
      forall p | p in live :: p < next
    }

    constructor ()
      ensures Valid() && live == map[]
    {
      live, next, failures := map[], 0, 0;
    }

    method Alloc(l: Layout) returns (p: Option<Ptr>)
      requires Valid()
      modifies this
      ensures Valid()
      ensures p.Some? ==>
                p.value !in old(live) && live == old(live)[p.value := Cell(l, Out)] && failures == old(failures)
      ensures p.None? ==> live == old(live) && failures == old(failures) + 1
    {
      if * {
        p := Some(next);
        live := live[next := Cell(l, Out)];
        next := next + 1;
      } else {
        p := None;
        failures := failures + 1;
      }
    }

    /** Memory is freed once, with the layout it was made with. */
    method Dealloc(p: Ptr, l: Layout)
      requires Valid() && p in live && live[p].layout == l
      modifies this
      ensures Valid() && live == old(live) - {p} && failures == old(failures)
    {
      live := live - {p};
    }

    ghost method Move(p: Ptr, place: Place)
      requires Valid() && p in live
      modifies this`live
      ensures Valid() && live == Moved(old(live), p, place)
    {
      live := Moved(live, p, place);
    }
  }

  // ----- the pool

  class Pool {
    const heap: Heap
    /** The buffers that came back from other threads, the last at the end. */
    var returned: seq<Buf>
    var waiting: bool
    var waiters: seq<Waker>
    var free: seq<seq<Ptr>>
    var cap: nat
    var reserved: nat
    var top: Option<nat>
    var charged: nat
    var exhausted: nat
    /** The wakers woken, in order. */
    ghost var woken: seq<Waker>

    ghost predicate Valid()
      reads this, heap
    {
      && heap.Valid()
      && Placed(heap.live, free, returned)
      && charged == reserved + Total(Layouts(heap.live)) <= USIZE_MAX
      && reserved + CLASSES[0] <= cap <= USIZE_MAX
      && top == TopFor(cap - reserved)
    }

    /** Charging `size` more keeps the ledger within 64 bits, or under a cap that refuses first. */
    predicate Sums(size: nat)
      reads this
    {
      cap < USIZE_MAX || charged + size <= USIZE_MAX
    }

    /** The same of a reservation beside a smallest buffer. */
    predicate RoomSums(bytes: nat)
      reads this
    {
      cap < USIZE_MAX || reserved + bytes + CLASSES[0] <= USIZE_MAX
    }

    /** An empty pool. */
    constructor (limit: nat)
      requires limit <= USIZE_MAX
      ensures Valid() && fresh(heap)
      ensures cap == Max(limit, CLASSES[0]) && charged == reserved == 0 && heap.live == map[]
    {
      heap := new Heap();
      returned, waiting, waiters := [], false, [];
      free := [[], [], [], []];
      cap, reserved, charged, exhausted := Max(limit, CLASSES[0]), 0, 0, 0;
      top := TopFor(Max(limit, CLASSES[0]));
      woken := [];
    }

    /** Gives idle memory up for a charge to come: the largest classes first, no more than it takes, and
        in vain exactly when the buffers not idle leave too little. Under the largest cap, a charge that
        would come round passes as it is. */
    method MakeRoom(size: nat) returns (ok: bool)
      requires Valid() && size <= USIZE_MAX
      modifies this`free, this`charged, this`exhausted, heap
      ensures Valid() && BusyOf(heap.live) == old(BusyOf(heap.live)) && OutOf(heap.live) == old(OutOf(heap.live))
      ensures heap.failures == old(heap.failures)
      ensures old(Sums(size)) ==>
                (ok <==> reserved + Total(BusyOf(heap.live)) + size <= cap) && (ok ==> charged + size <= cap)
      ensures !old(Sums(size)) ==> ok && free == old(free) && charged == old(charged)
      ensures ok ==> exhausted == old(exhausted)
      ensures !ok ==> NoneFree(free) && exhausted == old(exhausted) + 1
      ensures charged <= old(charged)
      ensures ok && free != old(free) ==>
                exists c: nat :: FreedDownTo(old(free), free, c) && c < |CLASSES| && charged + CLASSES[c] + size > cap
    {
      hide Placed, BusyOf, OutOf, Layouts, TopFor;
      PlacedShape(heap.live, free, returned);
      ghost var busy, out := BusyOf(heap.live), OutOf(heap.live);
      BusyBytes(heap.live);
      if FitsCap(cap, charged, size) {
        return true;
      }
      assert cap < USIZE_MAX;
      var c := |CLASSES|;
      while c > 0
        invariant 0 <= c <= |CLASSES| == |free| && Valid()
        invariant BusyOf(heap.live) == busy && OutOf(heap.live) == out && heap.failures == old(heap.failures)
        invariant FreedFrom(old(free), free, c)
        invariant charged + size > cap && charged <= old(charged) && exhausted == old(exhausted)
      {
        c := c - 1;
        while free[c] != []
          invariant |free| == |CLASSES| && Valid()
          invariant BusyOf(heap.live) == busy && OutOf(heap.live) == out && heap.failures == old(heap.failures)
          invariant FreedDownTo(old(free), free, c)
          invariant charged + size > cap && charged <= old(charged) && exhausted == old(exhausted)
          decreases |free[c]|
        {
          FreeOne(c);
          if FitsCap(cap, charged, size) {
            BusyBytes(heap.live);
            return true;
          }
        }
      }
      AllBusy(heap.live, free, returned);
      exhausted := exhausted + 1;
      return false;
    }

    /** Gives one idle buffer of a class to the allocator. */
    method FreeOne(c: nat)
      requires Valid() && c < |CLASSES| == |free| && free[c] != []
      modifies this`free, this`charged, heap
      ensures Valid() && BusyOf(heap.live) == old(BusyOf(heap.live)) && OutOf(heap.live) == old(OutOf(heap.live))
      ensures heap.failures == old(heap.failures) && charged == old(charged) - CLASSES[c]
      ensures free == old(free)[c := old(free)[c][..|old(free)[c]| - 1]]
    {
      hide Placed, BusyOf, OutOf, Layouts, TopFor;
      ghost var m := heap.live;
      PlacedShape(m, free, returned);
      var p := free[c][|free[c]| - 1];
      PopFree(m, free, returned, c);
      IdleFreed(m, p);
      free := free[c := free[c][..|free[c]| - 1]];
      heap.Move(p, Out);
      DropOut(heap.live, free, returned, p);
      MovedBytes(m, p, Out);
      FreedBytes(heap.live, p);
      heap.Dealloc(p, ClassLayout(c));
      charged := charged - CLASSES[c];
    }

    /** Empties the return list: what is found of the class wanted is handed out, once, and everything
        else is idle or freed. */
    method TakeReturned(want: Option<nat>) returns (found: Option<Ptr>)
      requires Valid() && (want.Some? ==> want.value < |CLASSES|)
      modifies this`returned, this`free, this`charged, heap
      ensures Valid() && returned == [] && heap.failures == old(heap.failures) && charged <= old(charged)
      ensures found.Some? ==>
                && want.Some? && found.value !in old(OutOf(heap.live))
                && OutOf(heap.live) == old(OutOf(heap.live))[found.value := ClassLayout(want.value)]
      ensures found.None? ==> OutOf(heap.live) == old(OutOf(heap.live))
    {
      hide Placed, OutOf, Layouts, TopFor;
      var taken := returned;
      returned := [];
      found := None;
      ghost var out := OutOf(heap.live);
      while taken != []
        invariant heap.Valid() && Placed(heap.live, free, taken) && returned == []
        invariant charged == reserved + Total(Layouts(heap.live)) && charged <= old(charged)
        invariant heap.failures == old(heap.failures)
        invariant found.Some? ==>
                    want.Some? && found.value !in out && OutOf(heap.live) == out[found.value := ClassLayout(want.value)]
        invariant found.None? ==> OutOf(heap.live) == out
      {
        ghost var m := heap.live;
        PlacedShape(m, free, taken);
        PopBack(m, free, taken);
        var b := taken[|taken| - 1];
        BackNotOut(m, free, taken);
        taken := taken[..|taken| - 1];
        heap.Move(b.ptr, Out);
        MovedBytes(m, b.ptr, Out);
        OutMoved(m, b.ptr, Out);
        if b.tag.cls == WHOLE {
          DropOut(heap.live, free, taken, b.ptr);
          OutMoved(heap.live, b.ptr, Out);
          FreedBytes(heap.live, b.ptr);
          heap.Dealloc(b.ptr, WholeLayout(b.tag.cap));
          charged := charged - b.tag.cap;
          assert OutOf(m)[b.ptr := m[b.ptr].layout] - {b.ptr} == OutOf(m);
        } else if found == None && want == Some(b.tag.cls) {
          found := Some(b.ptr);
        } else {
          PushFree(heap.live, free, taken, b.tag.cls, b.ptr);
          OutMoved(heap.live, b.ptr, Free(b.tag.cls, |free[b.tag.cls]|));
          MovedBytes(heap.live, b.ptr, Free(b.tag.cls, |free[b.tag.cls]|));
          heap.Move(b.ptr, Free(b.tag.cls, |free[b.tag.cls]|));
          free := free[b.tag.cls := free[b.tag.cls] + [b.ptr]];
          assert OutOf(m)[b.ptr := m[b.ptr].layout] - {b.ptr} == OutOf(m);
        }
      }
    }

    /** Memory made for a layout. With no failure of the allocator it comes exactly when its bytes fit
        beside the buffers not idle; the ledger comes round exactly when the sum was not guarded. */
    method Allocate(l: Layout) returns (p: Option<Ptr>)
      requires Valid() && l.size <= USIZE_MAX
      modifies this`free, this`charged, this`exhausted, heap
      ensures Valid() <==> old(Sums(l.size)) || p.None?
      ensures p.Some? ==> p.value !in old(OutOf(heap.live)) && OutOf(heap.live) == old(OutOf(heap.live))[p.value := l]
      ensures p.Some? ==> heap.failures == old(heap.failures) && (old(Sums(l.size)) ==> charged <= cap)
      ensures p.None? ==> OutOf(heap.live) == old(OutOf(heap.live)) && charged <= old(charged)
      ensures p.None? && heap.failures == old(heap.failures) ==> NoneFree(free)
      ensures heap.failures == old(heap.failures) && old(Sums(l.size)) ==>
                (p.Some? <==> reserved + Total(old(BusyOf(heap.live))) + l.size <= cap)
    {
      hide Placed, BusyOf, OutOf, Layouts, TopFor;
      var ok := MakeRoom(l.size);
      if !ok {
        return None;
      }
      charged := WrappingAdd(charged, l.size);
      ghost var m := heap.live;
      p := heap.Alloc(l);
      if p.None? {
        charged := WrappingSub(charged, l.size);
      } else {
        AddOut(m, free, returned, p.value, l);
        AddedBytes(m, p.value, Cell(l, Out));
        OutAdded(m, p.value, l);
      }
    }

    /** A buffer of a class: an idle one, one that came back, or a new one. */
    method GetClass(c: nat) returns (r: Option<Buf>)
      requires Valid() && c < |CLASSES|
      modifies this`returned, this`free, this`charged, this`exhausted, heap
      ensures old(Sums(CLASSES[c])) ==> Valid()
      ensures r.Some? ==>
                && r.value.tag == Tag(c, CLASSES[c]) && r.value.ptr !in old(OutOf(heap.live))
                && OutOf(heap.live) == old(OutOf(heap.live))[r.value.ptr := ClassLayout(c)]
      ensures r.None? ==> OutOf(heap.live) == old(OutOf(heap.live))
      ensures r.None? && heap.failures == old(heap.failures) ==> NoneFree(free) && returned == []
      ensures old(charged) <= cap && old(Sums(CLASSES[c])) ==> charged <= cap
      ensures heap.failures == old(heap.failures) && old(charged) <= cap && old(Sums(CLASSES[c])) ==>
                (r.Some? <==> reserved + Total(old(OutOf(heap.live))) + CLASSES[c] <= cap)
      ensures old(free[c] != []) ==>
                && r == Some(Buf(old(free[c][|free[c]| - 1]), Tag(c, CLASSES[c])))
                && free == old(free[c := free[c][..|free[c]| - 1]])
                && returned == old(returned) && charged == old(charged) && Valid()
    {
      hide Placed, BusyOf, OutOf, Layouts, TopFor;
      ghost var m := heap.live;
      PlacedShape(m, free, returned);
      var p: Option<Ptr>;
      if free[c] != [] {
        var list := free[c];
        p := Some(list[|list| - 1]);
        PopFree(m, free, returned, c);
        free := free[c := list[..|list| - 1]];
        MovedBytes(m, p.value, Out);
        OutMoved(m, p.value, Out);
        NotOut(m, p.value);
        heap.Move(p.value, Out);
      } else {
        p := TakeReturned(Some(c));
      }
      if p.Some? {
        HandedFits(OutOf(m), p.value, ClassLayout(c), heap.live);
      } else {
        BusyOut(heap.live, free);
        p := Allocate(ClassLayout(c));
      }
      r := if p.Some? then Some(Buf(p.value, Tag(c, CLASSES[c]))) else None;
    }

    /** The class a length asks for, lowered to what the room allows, and the answer to it. */
    method Get(len: nat) returns (r: Option<Buf>)
      requires Valid()
      modifies this`returned, this`free, this`charged, this`exhausted, heap
      ensures top.Some?
      ensures var c := Min(ClassFor(len), top.value);
              && (old(Sums(CLASSES[c])) ==> Valid())
              && (r.Some? ==>
                    && r.value.tag == Tag(c, CLASSES[c]) && r.value.ptr !in old(OutOf(heap.live))
                    && OutOf(heap.live) == old(OutOf(heap.live))[r.value.ptr := ClassLayout(c)])
              && (r.None? ==> OutOf(heap.live) == old(OutOf(heap.live)))
              && (r.None? && heap.failures == old(heap.failures) ==> NoneFree(free) && returned == [])
              && (old(charged) <= cap && old(Sums(CLASSES[c])) ==> charged <= cap)
              && (heap.failures == old(heap.failures) && old(charged) <= cap && old(Sums(CLASSES[c])) ==>
                    (r.Some? <==> reserved + Total(old(OutOf(heap.live))) + CLASSES[c] <= cap))
    {
      if top.None? {
        return None;
      }
      r := GetClass(Min(ClassFor(len), top.value));
    }

    /** What the pool would answer with nothing out, as the source asks it: the page count comes round. */
    predicate CouldHoldWhole(len: nat)
      requires len <= USIZE_MAX
      reads this
    {
      LookedAt(len) <= cap - reserved
    }

    /** One buffer for the whole of a length, or nothing. */
    method GetWhole(len: nat) returns (r: Option<Buf>)
      requires Valid() && len <= USIZE_MAX
      modifies this`returned, this`free, this`charged, this`exhausted, heap
      ensures old(Sums(WholeBytes(len))) ==> Valid()
      ensures r.Some? ==>
                && r.value.tag.cap == WholeBytes(len) && len <= r.value.tag.cap && ValidTag(r.value.tag)
                && r.value.ptr !in old(OutOf(heap.live))
                && OutOf(heap.live) == old(OutOf(heap.live))[r.value.ptr := ReturnedLayout(r.value.tag)]
      ensures r.None? ==> OutOf(heap.live) == old(OutOf(heap.live))
      ensures old(charged) <= cap && old(Sums(WholeBytes(len))) ==> charged <= cap
      ensures heap.failures == old(heap.failures) && old(charged) <= cap && old(Sums(WholeBytes(len))) ==>
                (r.Some? <==>
                 WholeBytes(len) < TWO_32 && reserved + Total(old(OutOf(heap.live))) + WholeBytes(len) <= cap)
      ensures heap.failures == old(heap.failures) && old(charged) <= cap && old(Sums(WholeBytes(len)))
              && old(OutOf(heap.live)) == map[] ==>
                (r.Some? <==> WholeBytes(len) < TWO_32 && CouldHoldWhole(len))
    {
      hide Placed, BusyOf, OutOf, Layouts, TopFor;
      if len <= LARGEST {
        r := GetClass(ClassFor(len));
        return;
      }
      var size := NextPage(len);
      if size > USIZE_MAX || size >= TWO_32 {
        return None;
      }
      var none := TakeReturned(None);
      BusyOut(heap.live, free);
      var p := Allocate(WholeLayout(size));
      r := if p.Some? then Some(Buf(p.value, Tag(WHOLE, size))) else None;
    }

    /** A reservation of memory the shard holds elsewhere. Where the sums are guarded it is accepted
        exactly when a smallest buffer still fits beside it and the busy buffers leave the bytes; the
        pool is sound after it exactly when it was refused or its sums were guarded. */
    method Reserve(bytes: nat) returns (ok: bool)
      requires Valid() && bytes <= USIZE_MAX
      modifies this`free, this`charged, this`exhausted, this`reserved, this`top, heap
      ensures Valid() <==> !ok || old(RoomSums(bytes) && Sums(bytes))
      ensures OutOf(heap.live) == old(OutOf(heap.live)) && heap.failures == old(heap.failures)
      ensures old(RoomSums(bytes) && Sums(bytes)) ==>
                (ok <==> && old(reserved) + bytes + CLASSES[0] <= cap
                         && old(reserved) + Total(old(BusyOf(heap.live))) + bytes <= cap)
      ensures !old(RoomSums(bytes) && Sums(bytes)) ==> ok
      ensures reserved == if ok then SaturatingAdd(old(reserved), bytes) else old(reserved)
      ensures Valid() && ok ==> charged <= cap && reserved == old(reserved) + bytes
      ensures !ok ==> charged <= old(charged)
    {
      hide Placed, BusyOf, OutOf, Layouts, TopFor;
      BusyBytes(heap.live);
      if !LeavesRoom(cap, reserved, bytes) {
        return false;
      }
      ok := MakeRoom(bytes);
      if ok {
        charged := WrappingAdd(charged, bytes);
        reserved := SaturatingAdd(reserved, bytes);
        top := TopFor(cap - reserved);
      }
    }

    /** Undoes as much of the reservation as there is. */
    method Unreserve(bytes: nat)
      requires Valid()
      modifies this`charged, this`reserved, this`top
      ensures Valid()
      ensures var n := Min(bytes, old(reserved));
              reserved == old(reserved) - n && charged == old(charged) - n
    {
      var n := Min(bytes, reserved);
      charged := charged - n;
      reserved := reserved - n;
      top := TopFor(cap - reserved);
    }

    /** Another cap, which the reservation and a smallest buffer still fit; idle memory past it goes. */
    method HoldTo(limit: nat)
      requires Valid() && limit <= USIZE_MAX
      modifies this`free, this`charged, this`exhausted, this`cap, this`top, heap
      ensures Valid() && OutOf(heap.live) == old(OutOf(heap.live)) && heap.failures == old(heap.failures)
      ensures cap == Max(Max(limit, CLASSES[0]), reserved + CLASSES[0])
      ensures charged <= cap || NoneFree(free)
      ensures charged <= old(charged)
    {
      hide Placed, BusyOf, OutOf, Layouts;
      cap := Max(Max(limit, CLASSES[0]), reserved + CLASSES[0]);
      top := TopFor(cap - reserved);
      var ok := MakeRoom(0);
    }

    /** Wakes every queued waker, in order, if the flag is up. */
    method WakeWaiters()
      modifies this`waiting, this`waiters, this`woken
      ensures !waiting
      ensures waiters == (if old(waiting) then [] else old(waiters))
      ensures woken == old(woken) + if old(waiting) then old(waiters) else []
    {
      if waiting {
        waiting := false;
        while waiters != []
          invariant !waiting && woken + waiters == old(woken) + old(waiters)
          decreases |waiters|
        {
          var w := waiters[0];
          waiters := waiters[1..];
          woken := woken + [w];
        }
      }
    }

    /** A buffer comes home on the pool's thread: kept on its free list, or given to the allocator. */
    method TakeBack(b: Buf)
      requires Valid() && ValidTag(b.tag)
      requires b.ptr in heap.live && heap.live[b.ptr] == Cell(ReturnedLayout(b.tag), Out)
      modifies this`free, this`charged, this`waiting, this`waiters, this`woken, heap
      ensures Valid() && OutOf(heap.live) == old(OutOf(heap.live)) - {b.ptr} && !waiting
      ensures b.tag.cls == WHOLE ==> charged == old(charged) - b.tag.cap && free == old(free)
      ensures b.tag.cls != WHOLE ==>
                && charged == old(charged) && b.tag.cls < |old(free)|
                && free == old(free)[b.tag.cls := old(free)[b.tag.cls] + [b.ptr]]
      ensures waiters == (if old(waiting) then [] else old(waiters))
      ensures woken == old(woken) + if old(waiting) then old(waiters) else []
    {
      hide Placed, OutOf, Layouts, TopFor;
      ghost var m := heap.live;
      PlacedShape(m, free, returned);
      if b.tag.cls == WHOLE {
        DropOut(m, free, returned, b.ptr);
        OutMoved(m, b.ptr, Out);
        FreedBytes(m, b.ptr);
        heap.Dealloc(b.ptr, WholeLayout(b.tag.cap));
        charged := charged - b.tag.cap;
      } else {
        var c := b.tag.cls;
        PushFree(m, free, returned, c, b.ptr);
        OutMoved(m, b.ptr, Free(c, |free[c]|));
        MovedBytes(m, b.ptr, Free(c, |free[c]|));
        heap.Move(b.ptr, Free(c, |free[c]|));
        free := free[c := free[c] + [b.ptr]];
      }
      WakeWaiters();
    }

    /** A buffer comes home from some other thread, as one step: onto the return list. */
    method GiveBack(b: Buf)
      requires Valid() && ValidTag(b.tag)
      requires b.ptr in heap.live && heap.live[b.ptr] == Cell(ReturnedLayout(b.tag), Out)
      modifies this`returned, this`waiting, this`waiters, this`woken, heap
      ensures Valid() && OutOf(heap.live) == old(OutOf(heap.live)) - {b.ptr} && !waiting
      ensures returned == old(returned) + [b]
      ensures waiters == (if old(waiting) then [] else old(waiters))
      ensures woken == old(woken) + if old(waiting) then old(waiters) else []
    {
      hide Placed, OutOf, Layouts, TopFor;
      ghost var m := heap.live;
      PushBack(m, free, returned, b);
      OutMoved(m, b.ptr, Back(|returned|));
      MovedBytes(m, b.ptr, Back(|returned|));
      heap.Move(b.ptr, Back(|returned|));
      returned := returned + [b];
      WakeWaiters();
    }

    /** Queues a waker for the next buffer to come back: it is left queued only with the flag up,
        nothing idle to be had, and a buffer out to come back. */
    method WaitForReturn(w: Waker)
      requires Valid()
      modifies this`waiting, this`waiters, this`woken
      ensures Valid()
      ensures charged == reserved ==> woken == old(woken) + [w] && waiters == old(waiters) && waiting == old(waiting)
      ensures charged != reserved && !(NoneFree(free) && returned == []) ==>
                woken == old(woken) + old(waiters) + [w] && waiters == [] && !waiting
      ensures charged != reserved && NoneFree(free) && returned == [] ==>
                && woken == old(woken) && waiters == old(waiters) + [w] && waiting
                && OutOf(heap.live) != map[] && OutOf(heap.live) == Layouts(heap.live)
    {
      if charged == reserved {
        woken := woken + [w];
        return;
      }
      waiters := waiters + [w];
      waiting := true;
      var idle := exists c | 0 <= c < |free| :: free[c] != [];
      if idle || returned != [] {
        WakeWaiters();
      } else {
        AllBusy(heap.live, free, returned);
      }
    }

    /** The pool goes: its idle buffers are freed, and whoever waits is woken to find it gone. What
        was out or returned is left for the home. */
    method Drop()
      requires Valid()
      modifies this`free, this`waiting, this`waiters, this`woken, heap
      ensures heap.Valid() && Placed(heap.live, free, returned) && NoneFree(free)
      ensures Layouts(heap.live) == old(BusyOf(heap.live)) && OutOf(heap.live) == old(OutOf(heap.live))
      ensures waiters == (if old(waiting) then [] else old(waiters))
      ensures woken == old(woken) + if old(waiting) then old(waiters) else []
    {
      hide Placed, BusyOf, OutOf, Layouts, TopFor;
      PlacedShape(heap.live, free, returned);
      ghost var busy, out := BusyOf(heap.live), OutOf(heap.live);
      for c := 0 to |CLASSES|
        invariant |free| == |CLASSES| && heap.Valid() && Placed(heap.live, free, returned)
        invariant BusyOf(heap.live) == busy && OutOf(heap.live) == out
        invariant forall d | 0 <= d < c :: free[d] == []
        invariant waiting == old(waiting) && waiters == old(waiters) && woken == old(woken)
      {
        while free[c] != []
          invariant |free| == |CLASSES| && heap.Valid() && Placed(heap.live, free, returned)
          invariant BusyOf(heap.live) == busy && OutOf(heap.live) == out
          invariant forall d | 0 <= d < c :: free[d] == []
          invariant waiting == old(waiting) && waiters == old(waiters) && woken == old(woken)
          decreases |free[c]|
        {
          ghost var m := heap.live;
          var p := free[c][|free[c]| - 1];
          PopFree(m, free, returned, c);
          IdleFreed(m, p);
          free := free[c := free[c][..|free[c]| - 1]];
          heap.Move(p, Out);
          DropOut(heap.live, free, returned, p);
          heap.Dealloc(p, ClassLayout(c));
        }
      }
      AllBusy(heap.live, free, returned);
      WakeWaiters();
    }

    /** The home goes, with its last reference: what came back is freed, and nothing is left. */
    method DropHome()
      requires heap.Valid() && Placed(heap.live, free, returned) && NoneFree(free) && OutOf(heap.live) == map[]
      modifies this`returned, heap
      ensures heap.live == map[]
    {
      hide Placed, OutOf, Layouts;
      while returned != []
        invariant heap.Valid() && Placed(heap.live, free, returned) && NoneFree(free) && OutOf(heap.live) == map[]
        decreases |returned|
      {
        ghost var m := heap.live;
        PopBack(m, free, returned);
        var b := returned[|returned| - 1];
        returned := returned[..|returned| - 1];
        heap.Move(b.ptr, Out);
        OutMoved(m, b.ptr, Out);
        OutMoved(heap.live, b.ptr, Out);
        DropOut(heap.live, free, returned, b.ptr);
        heap.Dealloc(b.ptr, ReturnedLayout(b.tag));
        assert OutOf(heap.live) == map[];
      }
      AllBusy(heap.live, free, returned);
      NoLayouts(heap.live);
    }
  }

  lemma NoLayouts(m: Mem)
    requires Layouts(m) == map[]
    ensures m == map[]
  {
    assert forall p | p in m :: p in Layouts(m);
  }

  /** How large a buffer `len` bytes get: the smallest class they fit in, or whole pages. */
  function WholeBytes(len: nat): (size: nat)
    ensures len <= size
    ensures len <= LARGEST
            ==> size in CLASSES && forall c | 0 <= c < |CLASSES| && len <= CLASSES[c] :: size <= CLASSES[c]
    ensures len > LARGEST ==> size < len + 4096 && size % 4096 == 0
  {
    if len <= LARGEST then CLASSES[ClassFor(len)] else NextPage(len)
  }

  lemma OutAdded(m: Mem, p: Ptr, l: Layout)
    requires p !in m
    ensures p !in OutOf(m) && OutOf(m[p := Cell(l, Out)]) == OutOf(m)[p := l]
  {
  }

  lemma NotOut(m: Mem, p: Ptr)
    requires p in m && !m[p].place.Out?
    ensures p !in OutOf(m)
  {
  }

  lemma BackNotOut(m: Mem, free: seq<seq<Ptr>>, back: seq<Buf>)
    requires Placed(m, free, back)
    ensures forall b | b in back :: b.ptr !in OutOf(m)
  {
  }

  /** The page count on 64 bits: past the last whole page it comes round to nothing. */
  function LookedAt(len: nat): nat
    requires len <= USIZE_MAX
  {
    if WholeBytes(len) < TWO_64 then WholeBytes(len) else WholeBytes(len) - TWO_64
  }

  /** The look is right, whatever the room, exactly up to the last length with a page count. */
  lemma LookedAtExactly(len: nat, room: nat)
    requires len <= USIZE_MAX && room <= USIZE_MAX
    ensures (LookedAt(len) <= room <==> WholeBytes(len) <= room) <==> len <= TWO_64 - 4096
  {
  }

  /** The longest length of all looks as if it took nothing. */
  lemma LooksAtNothing()
    ensures LookedAt(USIZE_MAX) == 0
  {
  }

  // ----- the sums under the largest cap

  /** Under the largest cap a reservation of everything passes its check and its charge, and no class is
      left. */
  lemma LeavesNoRoom()
    ensures LeavesRoom(USIZE_MAX, 0, USIZE_MAX) && FitsCap(USIZE_MAX, 0, USIZE_MAX)
    ensures WrappingAdd(0, USIZE_MAX) == USIZE_MAX && TopFor(USIZE_MAX - USIZE_MAX) == None
  {
  }

  /** The check before a reservation leaves room for a smallest buffer exactly when it is guarded. */
  lemma LeavesRoomExactly(cap: nat, reserved: nat, bytes: nat)
    requires cap <= USIZE_MAX
    ensures (LeavesRoom(cap, reserved, bytes) ==> reserved + bytes + CLASSES[0] <= cap)
            <==> (cap < USIZE_MAX || reserved + bytes + CLASSES[0] <= USIZE_MAX)
  {
  }

  /** Under the largest cap, a reservation that leaves one smallest buffer, that buffer, and another: the
      second buffer's charge passes and the ledger comes round to less than one buffer. */
  lemma LedgerComesRound()
    ensures var most := USIZE_MAX - CLASSES[0];
            && LeavesRoom(USIZE_MAX, 0, most) && FitsCap(USIZE_MAX, 0, most)
            && FitsCap(USIZE_MAX, most, CLASSES[0]) && WrappingAdd(most, CLASSES[0]) == USIZE_MAX
            && FitsCap(USIZE_MAX, USIZE_MAX, CLASSES[0]) && WrappingAdd(USIZE_MAX, CLASSES[0]) == CLASSES[0] - 1
  {
  }

  /** The check before a charge keeps the ledger within the cap exactly when it is guarded. */
  lemma FitsExactly(cap: nat, charged: nat, size: nat)
    requires cap <= USIZE_MAX
    ensures (FitsCap(cap, charged, size) ==> charged + size <= cap)
            <==> (cap < USIZE_MAX || charged + size <= USIZE_MAX)
  {
  }
}
