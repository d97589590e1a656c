/** The buffer pool's size classes and layouts (src/buf/mod.rs). */
module SizeClasses {
  import opened Prelude

  type Ptr = nat

  const CLASSES: seq<nat> := [512, 4096, 16384, 65536]
  const LARGEST: nat := 65536
  /** The tag of a buffer with no class: its size is the request's own. */
  const WHOLE: nat := 255

  datatype Layout = Layout(size: nat, align: nat)

  /** What a buffer knows about itself on its way back: its class tag and its size. */
  datatype Tag = Tag(cls: nat, cap: nat)

  /** The best class `room` bytes can pay for. */
  function TopFor(room: nat): (r: Option<nat>)
    ensures r.None? <==> room < CLASSES[0]
    ensures r.Some? ==>
              && r.value < |CLASSES| && CLASSES[r.value] <= room
              && forall d | r.value < d < |CLASSES| :: room < CLASSES[d]
  {
    if CLASSES[3] <= room then Some(3)
    else if CLASSES[2] <= room then Some(2)
    else if CLASSES[1] <= room then Some(1)
    else if CLASSES[0] <= room then Some(0)
    else None
  }

  /** The class a request for `len` bytes is served from. */
  function ClassFor(len: nat): (c: nat)
    ensures c < |CLASSES|
    ensures len <= LARGEST ==> len <= CLASSES[c]
    ensures forall d | 0 <= d < c :: CLASSES[d] < len
    ensures len > LARGEST ==> c == |CLASSES| - 1
  {
    if len <= CLASSES[0] then 0
    else if len <= CLASSES[1] then 1
    else if len <= CLASSES[2] then 2
    else 3
  }

  /** Page-aligned from 4 KiB, cache-line aligned below. */
  function ClassLayout(cls: nat): Layout
    requires cls < |CLASSES|
  {
    var size := CLASSES[cls];
    Layout(size, if size >= 4096 then 4096 else 64)
  }

  function WholeLayout(size: nat): Layout {
    Layout(size, 4096)
  }

  /** The layout a returned buffer is freed with, worked out from its tag. */
  function ReturnedLayout(tag: Tag): Layout
    requires ValidTag(tag)
  {
    if tag.cls == WHOLE then WholeLayout(tag.cap) else ClassLayout(tag.cls)
  }

  /** A whole request's size: past the largest class, and within a `u32`. */
  predicate WholeSize(size: nat) {
    LARGEST < size < TWO_32
  }

  predicate ValidTag(tag: Tag) {
    if tag.cls == WHOLE then WholeSize(tag.cap)
    else tag.cls < |CLASSES| && tag.cap == CLASSES[tag.cls]
  }

  /** `len` rounded up to a multiple of 4096. */
  function NextPage(len: nat): (size: nat)
    ensures len <= size < len + 4096 && size % 4096 == 0
  {
    (len + 4095) / 4096 * 4096
  }

  /** The check before a reservation: a smallest buffer fits beside it. The sums stop at the largest word. */
  predicate LeavesRoom(cap: nat, reserved: nat, bytes: nat) {
    SaturatingAdd(SaturatingAdd(reserved, bytes), CLASSES[0]) <= cap
  }

  /** The check before a charge. */
  predicate FitsCap(cap: nat, charged: nat, size: nat) {
    SaturatingAdd(charged, size) <= cap
  }

  /** The bytes of a set of live allocations. */
  ghost function Total(live: map<Ptr, Layout>): nat
    decreases |live|
  {
    if live == map[] then 0
    else
      var p :| p in live;
      live[p].size + Total(live - {p})
  }

  lemma {:induction false} TotalRemove(live: map<Ptr, Layout>, p: Ptr)
    requires p in live
    ensures Total(live) == live[p].size + Total(live - {p})
    decreases |live|
  {
    var q :| q in live && Total(live) == live[q].size + Total(live - {q});
    if q != p {
      TotalRemove(live - {q}, p);
      TotalRemove(live - {p}, q);
      assert live - {q} - {p} == live - {p} - {q};
    }
  }

  lemma TotalAdd(live: map<Ptr, Layout>, p: Ptr, l: Layout)
    requires p !in live
    ensures Total(live[p := l]) == Total(live) + l.size
  {
    TotalRemove(live[p := l], p);
    assert live[p := l] - {p} == live;
  }

  /** A part of the allocations holds no more bytes than the whole. */
  lemma {:induction false} TotalMonotone(part: map<Ptr, Layout>, live: map<Ptr, Layout>)
    requires forall p | p in part :: p in live && live[p] == part[p]
    ensures Total(part) <= Total(live)
    decreases |part|
  {
    if part != map[] {
      var p :| p in part;
      TotalRemove(part, p);
      TotalRemove(live, p);
      TotalMonotone(part - {p}, live - {p});
    }
  }
}
