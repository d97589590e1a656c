/** The intrusive queue (src/rt/inbox.rs) a `JoinSet` keeps its woken members in, as a machine of
    atomic steps: any number of pushers, one taker.

    Items are their links. `order` (every node ever swapped in, the stub's turns included), `base`
    (how far the taker's end got), `at` (where each node is), `owed` (who has yet to link a node's
    predecessor to it), `taken` and `overlap` (a push had swapped and not linked at some moment
    of this pop) are history: no step reads them. A store through a node that the queue no longer
    owns sets `fault`. */
module Inbox {
  import opened Prelude

  type Tid = nat
  type Node = nat

  /** The queue's own node. */
  const STUB: Node := 0

  datatype Who = Pusher(t: Tid) | Taker

  datatype Place = InOrder(i: nat) | InHand(t: Tid)

  datatype Push = Clearing(n: Node) | Swapping(n: Node) | Linking(n: Node, prev: Node, i: nat)

  datatype Pop =
    | Resting
    | Peeking
    | Emptying
    | Loading(cur: Node)
    | Checking(cur: Node)
    | StubClearing(cur: Node)
    | StubSwapping(cur: Node)
    | StubLinking(cur: Node, prev: Node, i: nat)
    | Reloading(cur: Node)

  datatype Answer = Item(n: Node) | Empty | Busy

  datatype State = State(
    next: map<Node, Node>,
    head: Node,
    tail: Node,
    pushers: map<Tid, Push>,
    taker: Pop,
    answer: Option<Answer>,
    fault: bool,
    order: seq<Node>,
    base: nat,
    at: map<Node, Place>,
    owed: map<nat, Who>,
    taken: seq<Node>,
    overlap: bool)

  datatype Action =
    | Begin(t: Tid, n: Node) | Clear(t: Tid) | Swap(t: Tid) | Link(t: Tid)
    | Start | Peek | LookEmpty | Load | Check | PutClear | PutSwap | PutLink | Reload

  function Init(): State {
    State(map[], STUB, STUB, map[], Resting, None, false, [STUB], 0, map[STUB := InOrder(0)], map[], [], false)
  }

  /** A node's link: absent is null. */
  function NextOf(s: State, n: Node): Option<Node> {
    if n in s.next then Some(s.next[n]) else None
  }

  // ----- the pushers

  function DoSwap(s: State, t: Tid): State
    requires t in s.pushers && s.pushers[t].Swapping?
  {
    var n := s.pushers[t].n;
    var i := |s.order|;
    s.(head := n, pushers := s.pushers[t := Linking(n, s.head, i)],
       order := s.order + [n], at := s.at[n := InOrder(i)], owed := s.owed[i := Pusher(t)], overlap := true)
  }

  /** The store of the link, through the old head. */
  function LinkTo(s: State, prev: Node, n: Node, i: nat): State {
    s.(next := s.next[prev := n], owed := s.owed - {i},
       fault := s.fault || !(prev in s.at && s.at[prev].InOrder?))
  }

  function DoLink(s: State, t: Tid): State
    requires t in s.pushers && s.pushers[t].Linking?
  {
    var g := s.pushers[t];
    LinkTo(s, g.prev, g.n, g.i).(pushers := s.pushers - {t})
  }

  // ----- the taker

  /** The taker's end moves past its node. */
  function Advance(s: State, next: Node): State {
    s.(tail := next, base := s.base + 1, at := s.at - {s.tail})
  }

  function Answered(s: State, a: Answer): State {
    s.(taker := Resting, answer := Some(a))
  }

  function HandOut(s: State, cur: Node, next: Node): State {
    Answered(Advance(s, next), Item(cur)).(taken := s.taken + [cur])
  }

  /** The taker's end and its link; past the stub if that is where the end is. */
  function DoPeek(s: State): State {
    var cur := s.tail;
    match NextOf(s, cur)
    case None => s.(taker := if cur == STUB then Emptying else Checking(cur))
    case Some(n) => if cur == STUB then Advance(s, n).(taker := Loading(n)) else HandOut(s, cur, n)
  }

  function DoLoad(s: State): State
    requires s.taker.Loading?
  {
    var cur := s.taker.cur;
    match NextOf(s, cur)
    case None => s.(taker := Checking(cur))
    case Some(n) => HandOut(s, cur, n)
  }

  /** The stub goes behind the last item, as any push. */
  function DoPutSwap(s: State): State
    requires s.taker.StubSwapping?
  {
    var i := |s.order|;
    s.(head := STUB, taker := StubLinking(s.taker.cur, s.head, i),
       order := s.order + [STUB], at := s.at[STUB := InOrder(i)], owed := s.owed[i := Taker])
  }

  function DoReload(s: State): State
    requires s.taker.Reloading?
  {
    var cur := s.taker.cur;
    match NextOf(s, cur)
    case None => Answered(s, Busy)
    case Some(n) => HandOut(s, cur, n)
  }

  // ----- the machine

  /** A push begins only for an item that is neither queued nor being pushed, and never the stub. */
  predicate Enabled(s: State, a: Action) {
    match a
    case Begin(t, n) => t !in s.pushers && n != STUB && n !in s.at
    case Clear(t) => t in s.pushers && s.pushers[t].Clearing?
    case Swap(t) => t in s.pushers && s.pushers[t].Swapping?
    case Link(t) => t in s.pushers && s.pushers[t].Linking?
    case Start => s.taker.Resting?
    case Peek => s.taker.Peeking?
    case LookEmpty => s.taker.Emptying?
    case Load => s.taker.Loading?
    case Check => s.taker.Checking?
    case PutClear => s.taker.StubClearing?
    case PutSwap => s.taker.StubSwapping?
    case PutLink => s.taker.StubLinking?
    case Reload => s.taker.Reloading?
  }

  function Apply(s: State, a: Action): State
    requires Enabled(s, a)
  {
    match a
    case Begin(t, n) => s.(pushers := s.pushers[t := Clearing(n)], at := s.at[n := InHand(t)])
    case Clear(t) =>
      var n := s.pushers[t].n; s.(next := s.next - {n}, pushers := s.pushers[t := Swapping(n)])
    case Swap(t) => DoSwap(s, t)
    case Link(t) => DoLink(s, t)
    case Start => s.(taker := Peeking, overlap := s.owed != map[])
    case Peek => DoPeek(s)
    case LookEmpty => Answered(s, if s.head == STUB then Empty else Busy)
    case Load => DoLoad(s)
    case Check => if s.head == s.taker.cur then s.(taker := StubClearing(s.taker.cur)) else Answered(s, Busy)
    case PutClear => s.(next := s.next - {STUB}, taker := StubSwapping(s.taker.cur))
    case PutSwap => DoPutSwap(s)
    case PutLink =>
      var k := s.taker; LinkTo(s, k.prev, STUB, k.i).(taker := Reloading(k.cur))
    case Reload => DoReload(s)
  }

  /** The items among some nodes, in order. */
  function Items(nodes: seq<Node>): seq<Node> {
    if nodes == [] then []
    else if nodes[|nodes| - 1] == STUB then Items(nodes[..|nodes| - 1])
    else Items(nodes[..|nodes| - 1]) + [nodes[|nodes| - 1]]
  }

  /** Every item pushed so far, in the order of the pushes' swaps. */
  function Pushed(s: State): seq<Node> {
    Items(s.order)
  }

  /** The items in the queue, the next to come out first: a push under way counts from its swap. */
  function Content(s: State): seq<Node>
    requires s.base <= |s.order|
  {
    Items(s.order[s.base..])
  }

  /** `is_empty`: what any thread sees. */
  predicate IsEmpty(s: State) {
    s.head == STUB
  }

  /** `is_drained`: what the taker sees. */
  predicate IsDrained(s: State) {
    s.tail == STUB && IsEmpty(s)
  }
}
