/** The buffer pool and its shared home (src/buf/mod.rs) as a machine of atomic steps: one owner
    thread, any number of threads giving buffers back, and whoever drops the last reference.

    Each thread's place in its call is its program counter. The owner's store of the `waiting`
    flag goes through a store buffer that only a fence or a swap drains. Reads, writes and frees
    of memory that is not allocated, frees with another layout than the allocation's, ledger
    underflow and any touch of a dropped home set `fault` instead of being ruled out. */
module SharedPool {
  import opened Prelude
  import opened SizeClasses

  type Tid = nat
  type Waker = nat

  /** What a giver stores at the start of a buffer it puts on the return list. */
  datatype Back = Back(next: Option<Ptr>, tag: Tag)

  /** What a request asks for: a class, or a buffer of a size of its own. */
  datatype Want = Class(cls: nat) | Whole(size: nat)

  /** What the owner does once its wake loop ends. */
  datatype After = Return | DropBuf | DropPool

  /** What the owner makes room for. */
  datatype Goal = ForBuf(want: Want) | ForReserve(bytes: nat) | ForCap

  /** The owner's program counter. `rest` is history: the taken nodes still to visit. */
  datatype Owner =
    | Idle
    | Loading(want: Want)
    | Swapping(want: Want)
    | Walking(cur: Option<Ptr>, found: Option<Ptr>, want: Want, rest: seq<Ptr>)
    | Making(size: nat, goal: Goal)
    | Granting(want: Want)
    | Noting
    | Raising
    | Fencing
    | Looking
    | Lowering(after: After)
    | Popping(after: After, hand: Option<Waker>)
    | Draining
    | Gone

  /** A thread giving buffer `p` back. */
  datatype Giver =
    | Reading(p: Ptr, tag: Tag)
    | Writing(p: Ptr, tag: Tag, seen: Option<Ptr>)
    | Trying(p: Ptr, tag: Tag, seen: Option<Ptr>)
    | Checking
    | Clearing
    | Waking(hand: Option<Waker>)

  /** The drop of the home, once its last reference is gone. */
  datatype Closing = Open | CloseLoad | CloseSwap | CloseWalk(cur: Option<Ptr>, rest: seq<Ptr>) | Closed

  /** Where an allocation is (history only). Indices count from the bottom of its list. */
  datatype Place =
    | AtFree(cls: nat, i: nat)
    | AtChain(chain: Chain, i: nat)
    | AtFound
    | AtOut
    | AtGiver(t: Tid)

  /** A linked chain of returned buffers: on the return list, or taken off it by a walk. */
  datatype Chain = List | OwnerWalk | HomeWalk

  /** A live allocation: the layout it was made with, what a giver wrote into it, and its place. */
  datatype Alloc = Alloc(layout: Layout, back: Option<Back>, at: Place)

  type Mem = map<Ptr, Alloc>

  /** What a buffer's giver reaches of its pool. `list` (bottom first), `asked` (every waker
      queued), `popped` (those taken off the queue) and `woken` (those then called) are history. */
  datatype Home = Home(
    head: Option<Ptr>, waiting: bool, waiters: seq<Waker>,
    list: seq<Ptr>, asked: seq<Waker>, popped: seq<Waker>, woken: seq<Waker>)

  /** The pool's ledger. `lowered`, whether the cap ever went down, is history. */
  datatype Books = Books(cap: nat, reserved: nat, charged: nat, lowered: bool)

  datatype State = State(
    m: Mem,
    fault: bool,
    home: Home,
    refs: nat,
    closing: Closing,
    free: seq<seq<Ptr>>,
    books: Books,
    owner: Owner,
    unflushed: bool,
    out: map<Ptr, Tag>,
    givers: map<Tid, Giver>)

  datatype Action =
    // the owner's calls and steps
    | Get(c: nat) | GetWhole(bytes: nat) | Load | Swap | Walk | Make | Grant(grant: Option<Ptr>)
    | TakeBack(p: Ptr) | Note
    | Wait(w: Waker) | Raise | Fence | Look | Lower | Pop
    | Reserve(bytes: nat) | Unreserve(bytes: nat) | HoldTo(bytes: nat)
    | Drop | Drain
    // the hardware
    | Flush
    // a giver's call and steps
    | Give(t: Tid, p: Ptr) | Read(t: Tid) | Write(t: Tid) | Cas(t: Tid, spurious: bool)
    | Check(t: Tid) | Clear(t: Tid) | Wake(t: Tid)
    // the drop of the home
    | EndLoad | EndSwap | EndWalk

  function Init(cap: nat): State {
    State(map[], false, Home(None, false, [], [], [], [], []), 1, Open, [[], [], [], []],
          Books(Max(cap, CLASSES[0]), 0, 0, false), Idle, false, map[], map[])
  }

  // ----- pieces of steps

  predicate Holding(g: Giver) {
    g.Reading? || g.Writing? || g.Trying?
  }

  function TagFor(want: Want): Tag
    requires want.Class? ==> want.cls < |CLASSES|
  {
    match want
    case Class(c) => Tag(c, CLASSES[c])
    case Whole(size) => Tag(WHOLE, size)
  }

  predicate ValidWant(want: Want) {
    match want
    case Class(c) => c < |CLASSES|
    case Whole(size) => WholeSize(size)
  }

  function Put(m: Mem, p: Ptr, at: Place): Mem {
    if p in m then m[p := m[p].(at := at)] else m
  }

  /** `dealloc`: the memory goes, whatever was written in it too. */
  function Dealloc(s: State, p: Ptr, l: Layout): State {
    s.(m := s.m - {p}, fault := s.fault || p !in s.m || s.m[p].layout != l)
  }

  function Release(s: State, n: nat): State {
    if n <= s.books.charged then s.(books := s.books.(charged := s.books.charged - n)) else s.(fault := true)
  }

  /** A buffer handed to a caller: its bytes are the caller's, and it holds the home. */
  function HandOut(s: State, p: Ptr, tag: Tag): State {
    s.(out := s.out[p := tag], refs := s.refs + 1, owner := Idle,
       m := if p in s.m then s.m[p := Alloc(s.m[p].layout, None, AtOut)] else s.m)
  }

  /** A touch of the home's fields. */
  function Touch(s: State): State {
    s.(fault := s.fault || !s.closing.Open?)
  }

  /** One reference to the home goes; the last one drops it. */
  function Unref(s: State): State {
    if s.refs == 0 then s.(fault := true)
    else s.(refs := s.refs - 1, closing := if s.refs == 1 then CloseLoad else s.closing)
  }

  /** `try_pop` of the waiters: the first is in the popper's hand. */
  function PopOne(h: Home): Home
    requires h.waiters != []
  {
    h.(waiters := h.waiters[1..], popped := h.popped + [h.waiters[0]])
  }

  /** The call of a waker in hand. */
  function CallOne(h: Home, w: Waker): Home {
    h.(woken := h.woken + [w])
  }

  /** The last free class that is not empty, if any. */
  function IdleClass(free: seq<seq<Ptr>>): (r: Option<nat>)
    requires |free| == |CLASSES|
    ensures r.None? <==> forall c | 0 <= c < |CLASSES| :: free[c] == []
    ensures r.Some? ==> r.value < |CLASSES| && free[r.value] != []
  {
    if free[3] != [] then Some(3)
    else if free[2] != [] then Some(2)
    else if free[1] != [] then Some(1)
    else if free[0] != [] then Some(0)
    else None
  }

  function Last<T>(s: seq<T>): T
    requires s != []
  {
    s[|s| - 1]
  }

  function Front<T>(s: seq<T>): seq<T> {
    if s == [] then [] else s[..|s| - 1]
  }

  /** The top idle buffer of class `c` goes to the allocator. */
  function FreeTop(s: State, c: nat): State
    requires |s.free| == |CLASSES| && c < |CLASSES| && s.free[c] != []
  {
    Dealloc(s.(free := s.free[c := Front(s.free[c])]), Last(s.free[c]), ClassLayout(c))
  }

  /** The list taken whole: every node of it is node of the walk now. */
  function Moved(m: Mem, chain: Chain): Mem {
    map p | p in m ::
      if m[p].at.AtChain? && m[p].at.chain == List then m[p].(at := AtChain(chain, m[p].at.i)) else m[p]
  }

  function Finish(s: State, after: After): State {
    match after
    case Return => s.(owner := Idle)
    case DropBuf => Unref(s.(owner := Idle))
    case DropPool => Unref(s.(owner := Gone))
  }

  // ----- the owner's steps

  function DoGet(s: State, c: nat): State
    requires |s.free| == |CLASSES| && c < |CLASSES|
  {
    if s.free[c] == [] then s.(owner := Loading(Class(c)))
    else HandOut(s.(free := s.free[c := Front(s.free[c])]), Last(s.free[c]), TagFor(Class(c)))
  }

  function Room(want: Want): Owner
    requires ValidWant(want)
  {
    Making(TagFor(want).cap, ForBuf(want))
  }

  function DoLoad(s: State): State
    requires s.owner.Loading? && ValidWant(s.owner.want)
  {
    Touch(s).(owner := if s.home.head.None? then Room(s.owner.want) else Swapping(s.owner.want))
  }

  /** `take_all`: the whole list is the owner's from here on. */
  function DoSwap(s: State): State
    requires s.owner.Swapping?
  {
    Touch(s).(home := s.home.(head := None, list := []),
              owner := Walking(s.home.head, None, s.owner.want, s.home.list),
              m := Moved(s.m, OwnerWalk))
  }

  /** One turn of `take_returned`'s loop, or its end. */
  function DoWalk(s: State): State
    requires s.owner.Walking? && ValidWant(s.owner.want) && |s.free| == |CLASSES|
    requires s.owner.found.Some? ==> s.owner.want.Class?
  {
    var o := s.owner;
    if o.cur.None? then
      if o.found.Some? then HandOut(s, o.found.value, TagFor(o.want)) else s.(owner := Room(o.want))
    else
      var p := o.cur.value;
      if p !in s.m || s.m[p].back.None? || !ValidTag(s.m[p].back.value.tag) then s.(fault := true)
      else
        var back := s.m[p].back.value;
        var on := s.(owner := o.(cur := back.next, rest := Front(o.rest)));
        var c := back.tag.cls;
        if c == WHOLE then Release(Dealloc(on, p, WholeLayout(back.tag.cap)), back.tag.cap)
        else if o.found.None? && o.want == Class(c) then
          on.(owner := on.owner.(found := Some(p)), m := Put(s.m, p, AtFound))
        else
          on.(free := s.free[c := s.free[c] + [p]], m := Put(s.m, p, AtFree(c, |s.free[c]|)))
  }

  /** `make_room`: done if `size` more bytes fit, else one idle buffer goes, the largest first. */
  function DoMake(s: State): State
    requires s.owner.Making? && |s.free| == |CLASSES| && s.books.charged < TWO_64 && s.owner.size < TWO_64
  {
    var size := s.owner.size;
    var b := s.books;
    if FitsCap(b.cap, b.charged, size) then Charged(s) else
      match IdleClass(s.free)
      case Some(c) => Release(FreeTop(s, c), CLASSES[c])
      case None => s.(owner := Idle)
  }

  /** Room was made: the ledger takes the bytes, in 64 bits. */
  function Charged(s: State): State
    requires s.owner.Making? && s.books.charged < TWO_64 && s.owner.size < TWO_64
  {
    var b := s.books;
    var charged := WrappingAdd(b.charged, s.owner.size);
    match s.owner.goal
    case ForBuf(want) => s.(books := b.(charged := charged), owner := Granting(want))
    case ForReserve(n) => s.(books := b.(charged := charged, reserved := SaturatingAdd(b.reserved, n)), owner := Idle)
    case ForCap => s.(owner := Idle)
  }

  /** The allocator's answer: memory not in use, or none. */
  function DoGrant(s: State, grant: Option<Ptr>): State
    requires s.owner.Granting? && ValidWant(s.owner.want)
  {
    var tag := TagFor(s.owner.want);
    match grant
    case None => Release(s, tag.cap).(owner := Idle)
    case Some(p) => HandOut(s.(m := s.m[p := Alloc(ReturnedLayout(tag), None, AtOut)]), p, tag)
  }

  function DoTakeBack(s: State, p: Ptr): State
    requires p in s.out && ValidTag(s.out[p]) && |s.free| == |CLASSES|
  {
    var tag := s.out[p];
    var on := s.(out := s.out - {p}, owner := Noting);
    if tag.cls == WHOLE then Release(Dealloc(on, p, WholeLayout(tag.cap)), tag.cap)
    else
      on.(free := s.free[tag.cls := s.free[tag.cls] + [p]],
          m := Put(s.m, p, AtFree(tag.cls, |s.free[tag.cls]|)))
  }

  /** `take_back`'s look at the flag: the owner sees its own store, flushed or not. */
  function DoNote(s: State): State {
    if s.home.waiting || s.unflushed then Touch(s).(owner := Lowering(DropBuf))
    else Finish(Touch(s), DropBuf)
  }

  /** `wait_for_return`: with nothing out to come back `w` is woken at once, and queues nowhere. */
  function DoWait(s: State, w: Waker): State {
    if s.books.charged == s.books.reserved then s
    else
      Touch(s).(home := s.home.(waiters := s.home.waiters + [w], asked := s.home.asked + [w]), owner := Raising)
  }

  function DoLook(s: State): State
    requires |s.free| == |CLASSES|
  {
    Touch(s).(owner := if IdleClass(s.free).Some? || s.home.head.Some? then Lowering(Return) else Idle)
  }

  function DoLower(s: State): State
    requires s.owner.Lowering?
  {
    if s.home.waiting then Touch(s).(home := s.home.(waiting := false), owner := Popping(s.owner.after, None))
    else Finish(Touch(s), s.owner.after)
  }

  /** One turn of the wake loop: a pop, or the call of what was popped. */
  function DoPop(s: State): State
    requires s.owner.Popping?
  {
    var o := s.owner;
    if o.hand.Some? then s.(home := CallOne(s.home, o.hand.value), owner := Popping(o.after, None))
    else if s.home.waiters == [] then Finish(Touch(s), o.after)
    else Touch(s).(home := PopOne(s.home), owner := Popping(o.after, Some(s.home.waiters[0])))
  }

  function DoReserve(s: State, bytes: nat): State {
    if !LeavesRoom(s.books.cap, s.books.reserved, bytes) then s
    else s.(owner := Making(bytes, ForReserve(bytes)))
  }

  function DoUnreserve(s: State, bytes: nat): State {
    var n := Min(bytes, s.books.reserved);
    var r := Release(s, n);
    r.(books := r.books.(reserved := s.books.reserved - n))
  }

  function DoHoldTo(s: State, bytes: nat): State {
    var b := s.books;
    var cap := Max(Max(bytes, CLASSES[0]), b.reserved + CLASSES[0]);
    s.(books := b.(cap := cap, lowered := b.lowered || cap < b.cap), owner := Making(0, ForCap))
  }

  function DoDrain(s: State): State
    requires |s.free| == |CLASSES|
  {
    match IdleClass(s.free)
    case Some(c) => FreeTop(s, c)
    case None => s.(owner := Lowering(DropPool))
  }

  // ----- a giver's steps

  function DoGive(s: State, t: Tid, p: Ptr): State
    requires p in s.out
  {
    s.(out := s.out - {p}, givers := s.givers[t := Reading(p, s.out[p])], m := Put(s.m, p, AtGiver(t)))
  }

  function DoRead(s: State, t: Tid): State
    requires t in s.givers && s.givers[t].Reading?
  {
    Touch(s).(givers := s.givers[t := Writing(s.givers[t].p, s.givers[t].tag, s.home.head)])
  }

  function DoWrite(s: State, t: Tid): State
    requires t in s.givers && s.givers[t].Writing?
  {
    var g := s.givers[t];
    s.(m := if g.p in s.m then s.m[g.p := s.m[g.p].(back := Some(Back(g.seen, g.tag)))] else s.m,
       givers := s.givers[t := Trying(g.p, g.tag, g.seen)],
       fault := s.fault || g.p !in s.m)
  }

  /** The compare-and-swap; a weak one may fail with the head as expected. */
  function DoCas(s: State, t: Tid, spurious: bool): State
    requires t in s.givers && s.givers[t].Trying?
  {
    var g := s.givers[t];
    if s.home.head == g.seen && !spurious then
      Touch(s).(home := s.home.(head := Some(g.p), list := s.home.list + [g.p]),
                givers := s.givers[t := Checking],
                m := Put(s.m, g.p, AtChain(List, |s.home.list|)))
    else Touch(s).(givers := s.givers[t := Writing(g.p, g.tag, s.home.head)])
  }

  function GiverDone(s: State, t: Tid): State {
    Unref(s.(givers := s.givers - {t}))
  }

  function DoCheck(s: State, t: Tid): State {
    if s.home.waiting then Touch(s).(givers := s.givers[t := Clearing]) else GiverDone(Touch(s), t)
  }

  function DoClear(s: State, t: Tid): State {
    if s.home.waiting then Touch(s).(home := s.home.(waiting := false), givers := s.givers[t := Waking(None)])
    else GiverDone(Touch(s), t)
  }

  function DoWake(s: State, t: Tid): State
    requires t in s.givers && s.givers[t].Waking?
  {
    var hand := s.givers[t].hand;
    if hand.Some? then s.(home := CallOne(s.home, hand.value), givers := s.givers[t := Waking(None)])
    else if s.home.waiters == [] then GiverDone(Touch(s), t)
    else Touch(s).(home := PopOne(s.home), givers := s.givers[t := Waking(Some(s.home.waiters[0]))])
  }

  // ----- the home's drop

  function DoEndSwap(s: State): State {
    s.(home := s.home.(head := None, list := []), closing := CloseWalk(s.home.head, s.home.list),
       m := Moved(s.m, HomeWalk))
  }

  function DoEndWalk(s: State): State
    requires s.closing.CloseWalk?
  {
    var k := s.closing;
    if k.cur.None? then s.(closing := Closed)
    else
      var p := k.cur.value;
      if p !in s.m || s.m[p].back.None? || !ValidTag(s.m[p].back.value.tag) then s.(fault := true)
      else
        var back := s.m[p].back.value;
        Dealloc(s.(closing := CloseWalk(back.next, Front(k.rest))), p, ReturnedLayout(back.tag))
  }

  // ----- the machine

  predicate Enabled(s: State, a: Action) {
    |s.free| == |CLASSES| &&
    match a
    case Get(c) => s.owner.Idle? && c < |CLASSES|
    case GetWhole(n) => s.owner.Idle? && WholeSize(n)
    case Load => s.owner.Loading? && ValidWant(s.owner.want)
    case Swap => s.owner.Swapping? && ValidWant(s.owner.want)
    case Walk => s.owner.Walking? && ValidWant(s.owner.want) && (s.owner.found.Some? ==> s.owner.want.Class?)
    case Make => s.owner.Making? && s.books.charged < TWO_64 && s.owner.size < TWO_64
    case Grant(g) => s.owner.Granting? && ValidWant(s.owner.want) && (g.Some? ==> g.value !in s.m)
    case TakeBack(p) => s.owner.Idle? && p in s.out && ValidTag(s.out[p])
    case Note => s.owner.Noting?
    case Wait(_) => s.owner.Idle?
    case Raise => s.owner.Raising?
    case Fence => s.owner.Fencing? && !s.unflushed
    case Look => s.owner.Looking?
    case Lower => s.owner.Lowering? && !s.unflushed
    case Pop => s.owner.Popping?
    case Reserve(n) => s.owner.Idle? && n <= USIZE_MAX
    case Unreserve(n) => s.owner.Idle?
    case HoldTo(n) => s.owner.Idle? && n <= USIZE_MAX
    case Drop => s.owner.Idle?
    case Drain => s.owner.Draining?
    case Flush => s.unflushed
    case Give(t, p) => t !in s.givers && p in s.out
    case Read(t) => t in s.givers && s.givers[t].Reading?
    case Write(t) => t in s.givers && s.givers[t].Writing?
    case Cas(t, _) => t in s.givers && s.givers[t].Trying?
    case Check(t) => t in s.givers && s.givers[t].Checking?
    case Clear(t) => t in s.givers && s.givers[t].Clearing?
    case Wake(t) => t in s.givers && s.givers[t].Waking?
    case EndLoad => s.closing.CloseLoad?
    case EndSwap => s.closing.CloseSwap?
    case EndWalk => s.closing.CloseWalk?
  }

  /** The sums of the step stay within 64 bits where a saturated one would pass for less: under the
      largest cap, a reservation beside a smallest buffer, and a charge. */
  predicate Guarded(s: State, a: Action) {
    match a
    case Reserve(n) => s.books.cap < USIZE_MAX || s.books.reserved + n + CLASSES[0] <= USIZE_MAX
    case Make => s.owner.Making? ==> s.books.cap < USIZE_MAX || s.books.charged + s.owner.size <= USIZE_MAX
    case _ => true
  }

  function Apply(s: State, a: Action): State
    requires Enabled(s, a)
  {
    match a
    case Get(c) => DoGet(s, c)
    case GetWhole(n) => s.(owner := Loading(Whole(n)))
    case Load => DoLoad(s)
    case Swap => DoSwap(s)
    case Walk => DoWalk(s)
    case Make => DoMake(s)
    case Grant(g) => DoGrant(s, g)
    case TakeBack(p) => DoTakeBack(s, p)
    case Note => DoNote(s)
    case Wait(w) => DoWait(s, w)
    case Raise => s.(unflushed := true, owner := Fencing)
    case Fence => s.(owner := Looking)
    case Look => DoLook(s)
    case Lower => DoLower(s)
    case Pop => DoPop(s)
    case Reserve(n) => DoReserve(s, n)
    case Unreserve(n) => DoUnreserve(s, n)
    case HoldTo(n) => DoHoldTo(s, n)
    case Drop => s.(owner := Draining)
    case Drain => DoDrain(s)
    case Flush => s.(home := s.home.(waiting := true), unflushed := false)
    case Give(t, p) => DoGive(s, t, p)
    case Read(t) => DoRead(s, t)
    case Write(t) => DoWrite(s, t)
    case Cas(t, spurious) => DoCas(s, t, spurious)
    case Check(t) => DoCheck(s, t)
    case Clear(t) => DoClear(s, t)
    case Wake(t) => DoWake(s, t)
    case EndLoad => s.(closing := if s.home.head.None? then Closed else CloseSwap)
    case EndSwap => DoEndSwap(s)
    case EndWalk => DoEndWalk(s)
  }
}
