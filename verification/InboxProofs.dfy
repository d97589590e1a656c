/** The inbox is a queue: what every step keeps, and what every run of it answers. */
module InboxProofs {
  import opened Prelude
  import opened Inbox

  ghost predicate Is(at: map<Node, Place>, n: Node, p: Place) {
    n in at && at[n] == p
  }

  /** The nodes from the taker's end on are in the queue, each once. */
  ghost predicate Ordered(order: seq<Node>, base: nat, head: Node, tail: Node, at: map<Node, Place>) {
    && base < |order| && tail == order[base] && head == order[|order| - 1]
    && forall i | base <= i < |order| :: Is(at, order[i], InOrder(i))
  }

  predicate InHandOf(pushers: map<Tid, Push>, t: Tid, n: Node) {
    t in pushers && (pushers[t] == Clearing(n) || pushers[t] == Swapping(n))
  }

  ghost predicate PlacedAt(order: seq<Node>, base: nat, pushers: map<Tid, Push>, n: Node, p: Place) {
    match p
    case InOrder(i) => base <= i < |order| && order[i] == n
    case InHand(t) => InHandOf(pushers, t, n)
  }

  /** No other node is in the queue or on its way in. */
  ghost predicate Placed(order: seq<Node>, base: nat, pushers: map<Tid, Push>, at: map<Node, Place>) {
    forall n | n in at :: PlacedAt(order, base, pushers, n, at[n])
  }

  ghost predicate Null(next: map<Node, Node>, n: Node) {
    n !in next
  }

  ghost predicate Points(next: map<Node, Node>, n: Node, m: Node) {
    n in next && next[n] == m
  }

  /** Each node links to the next, unless that link is owed; the last links nowhere. */
  ghost predicate Linked(order: seq<Node>, base: nat, next: map<Node, Node>, owed: map<nat, Who>) {
    && base < |order| && Null(next, order[|order| - 1])
    && forall i | base < i < |order| ::
         if i in owed then Null(next, order[i - 1]) else Points(next, order[i - 1], order[i])
  }

  ghost predicate OwedBy(order: seq<Node>, i: nat, who: Who, pushers: map<Tid, Push>, taker: Pop) {
    0 < i < |order| &&
    match who
    case Pusher(t) => t in pushers && pushers[t] == Linking(order[i], order[i - 1], i)
    case Taker => taker.StubLinking? && taker.i == i && taker.prev == order[i - 1] && order[i] == STUB
  }

  /** Whoever owes a link is about to store it. */
  ghost predicate Owed(order: seq<Node>, base: nat, owed: map<nat, Who>, pushers: map<Tid, Push>, taker: Pop) {
    forall i | i in owed :: base < i && OwedBy(order, i, owed[i], pushers, taker)
  }

  ghost predicate PusherOk(p: Push, t: Tid, next: map<Node, Node>, at: map<Node, Place>, owed: map<nat, Who>) {
    match p
    case Clearing(n) => n != STUB && Is(at, n, InHand(t))
    case Swapping(n) => n != STUB && Is(at, n, InHand(t)) && Null(next, n)
    case Linking(n, prev, i) => i in owed && owed[i] == Pusher(t)
  }

  ghost predicate Pushers(pushers: map<Tid, Push>, next: map<Node, Node>, at: map<Node, Place>, owed: map<nat, Who>) {
    forall t | t in pushers :: PusherOk(pushers[t], t, next, at, owed)
  }

  ghost predicate PushUnderWay(owed: map<nat, Who>) {
    exists i :: i in owed && owed[i].Pusher?
  }

  predicate StubOut(k: Pop) {
    k.StubClearing? || k.StubSwapping?
  }

  ghost predicate TakerOk(s: State) {
    && (StubOut(s.taker) ==> STUB !in s.at)
    && (!s.taker.Resting? && PushUnderWay(s.owed) ==> s.overlap)
    && match s.taker
       case Resting => true
       case Peeking => true
       case Emptying => s.tail == STUB && (s.base + 1 == |s.order| || s.overlap)
       case Loading(cur) => cur == s.tail != STUB
       case Checking(cur) => cur == s.tail != STUB && (s.base + 1 == |s.order| || s.overlap)
       case StubClearing(cur) => cur == s.tail != STUB
       case StubSwapping(cur) => cur == s.tail != STUB && Null(s.next, STUB)
       case StubLinking(cur, _, i) => cur == s.tail != STUB && i in s.owed && s.owed[i].Taker?
       case Reloading(cur) => cur == s.tail != STUB && s.base + 1 < |s.order|
  }

  ghost predicate Answers(s: State) {
    && !s.fault
    && s.base <= |s.order| && s.taken == Items(s.order[..s.base])
  }

  ghost predicate Inv(s: State) {
    && Ordered(s.order, s.base, s.head, s.tail, s.at)
    && Placed(s.order, s.base, s.pushers, s.at)
    && Linked(s.order, s.base, s.next, s.owed)
    && Owed(s.order, s.base, s.owed, s.pushers, s.taker)
    && Pushers(s.pushers, s.next, s.at, s.owed)
    && TakerOk(s)
    && Answers(s)
  }

  lemma InitInv()
    ensures Inv(Init())
  {
  }

  // ----- a node goes in at the pushers' end

  lemma Appended(order: seq<Node>, base: nat, head: Node, tail: Node, at: map<Node, Place>, n: Node)
    requires Ordered(order, base, head, tail, at) && (n in at ==> at[n].InHand?)
    ensures Ordered(order + [n], base, n, tail, at[n := InOrder(|order|)])
  {
    forall i | base <= i < |order| ensures Is(at[n := InOrder(|order|)], (order + [n])[i], InOrder(i)) {
      assert Is(at, order[i], InOrder(i));
    }
  }

  lemma AppendedLinks(order: seq<Node>, base: nat, next: map<Node, Node>, owed: map<nat, Who>, n: Node, who: Who)
    requires Linked(order, base, next, owed) && Null(next, n)
    ensures Linked(order + [n], base, next, owed[|order| := who])
  {
  }

  lemma AppendedOwed(order: seq<Node>, base: nat, owed: map<nat, Who>, ps: map<Tid, Push>, k: Pop,
                     n: Node, who: Who, qs: map<Tid, Push>, l: Pop)
    requires base < |order| && Owed(order, base, owed, ps, k)
    requires OwedBy(order + [n], |order|, who, qs, l)
    requires forall t | t in ps && ps[t].Linking? :: t in qs && qs[t] == ps[t]
    requires k.StubLinking? ==> l == k
    ensures |order| !in owed && Owed(order + [n], base, owed[|order| := who], qs, l)
  {
    forall i | i in owed ensures OwedBy(order + [n], i, owed[i], qs, l) && base < i {
      assert OwedBy(order, i, owed[i], ps, k);
    }
  }

  lemma OwedKept(order: seq<Node>, base: nat, owed: map<nat, Who>, ps: map<Tid, Push>, k: Pop, qs: map<Tid, Push>,
                 l: Pop)
    requires Owed(order, base, owed, ps, k)
    requires forall t | t in ps && ps[t].Linking? :: t in qs && qs[t] == ps[t]
    requires k.StubLinking? ==> l == k
    ensures Owed(order, base, owed, qs, l)
  {
    forall i | i in owed ensures OwedBy(order, i, owed[i], qs, l) && base < i {
      assert OwedBy(order, i, owed[i], ps, k);
    }
  }

  lemma PlacedKept(order: seq<Node>, base: nat, ps: map<Tid, Push>, at: map<Node, Place>,
                   more: seq<Node>, t: Tid, qs: map<Tid, Push>, n: Node, at': map<Node, Place>)
    requires Placed(order, base, ps, at) && order <= more && qs - {t} == ps - {t}
    requires at' - {n} == at - {n} && (n in at' ==> PlacedAt(more, base, qs, n, at'[n]))
    requires t in ps ==> InHandOf(ps, t, n) || ps[t].Linking?
    ensures Placed(more, base, qs, at')
  {
    forall m | m in at' && m != n ensures PlacedAt(more, base, qs, m, at'[m]) {
      assert m in at' - {n};
      assert PlacedAt(order, base, ps, m, at[m]);
      if at[m].InHand? {
        assert at[m].t in ps - {t};
      }
    }
  }

  /** The pushers other than `t`, whose own step changed its node's link, its place or its debt. */
  lemma PushersKept(ps: map<Tid, Push>, next: map<Node, Node>, at: map<Node, Place>, owed: map<nat, Who>,
                    qs: map<Tid, Push>, next': map<Node, Node>, at': map<Node, Place>, owed': map<nat, Who>, t: Tid)
    requires Pushers(ps, next, at, owed) && qs - {t} == ps - {t}
    requires t in qs ==> PusherOk(qs[t], t, next', at', owed')
    requires forall n | n in at && at[n].InHand? && at[n].t != t ::
               n in at' && at'[n] == at[n] && (n !in next ==> n !in next')
    requires forall i | i in owed && owed[i].Pusher? && owed[i].t != t :: i in owed' && owed'[i] == owed[i]
    ensures Pushers(qs, next', at', owed')
  {
    forall u | u in qs ensures PusherOk(qs[u], u, next', at', owed') {
      if u != t {
        assert u in qs - {t};
        assert PusherOk(ps[u], u, next, at, owed);
      }
    }
  }

  // ----- the pushers' steps

  lemma BeginKeeps(s: State, t: Tid, n: Node)
    requires Inv(s) && t !in s.pushers && n != STUB && n !in s.at
    ensures Inv(s.(pushers := s.pushers[t := Clearing(n)], at := s.at[n := InHand(t)]))
  {
    hide Placed, Linked, Owed, Pushers;
    var r := s.(pushers := s.pushers[t := Clearing(n)], at := s.at[n := InHand(t)]);
    PlacedKept(s.order, s.base, s.pushers, s.at, s.order, t, r.pushers, n, r.at);
    OwedKept(s.order, s.base, s.owed, s.pushers, s.taker, r.pushers, r.taker);
    PushersKept(s.pushers, s.next, s.at, s.owed, r.pushers, r.next, r.at, r.owed, t);
  }

  lemma InHandFacts(s: State, t: Tid)
    requires Inv(s) && t in s.pushers && !s.pushers[t].Linking?
    ensures Is(s.at, s.pushers[t].n, InHand(t)) && s.pushers[t].n != STUB
    ensures s.pushers[t].Swapping? ==> Null(s.next, s.pushers[t].n)
    ensures forall i | s.base <= i < |s.order| :: s.order[i] != s.pushers[t].n
  {
    assert PusherOk(s.pushers[t], t, s.next, s.at, s.owed);
    forall i | s.base <= i < |s.order| ensures s.order[i] != s.pushers[t].n {
      assert Is(s.at, s.order[i], InOrder(i));
    }
  }

  lemma ClearKeeps(s: State, t: Tid)
    requires Inv(s) && t in s.pushers && s.pushers[t].Clearing?
    ensures var n := s.pushers[t].n; Inv(s.(next := s.next - {n}, pushers := s.pushers[t := Swapping(n)]))
  {
    hide Placed, Owed, Pushers;
    var n := s.pushers[t].n;
    var r := s.(next := s.next - {n}, pushers := s.pushers[t := Swapping(n)]);
    InHandFacts(s, t);
    PlacedKept(s.order, s.base, s.pushers, s.at, s.order, t, r.pushers, n, r.at);
    OwedKept(s.order, s.base, s.owed, s.pushers, s.taker, r.pushers, r.taker);
    PushersKept(s.pushers, s.next, s.at, s.owed, r.pushers, r.next, r.at, r.owed, t);
  }

  lemma SwapKeeps(s: State, t: Tid)
    requires Inv(s) && t in s.pushers && s.pushers[t].Swapping?
    ensures Inv(DoSwap(s, t))
  {
    hide Placed, Linked, Owed, Pushers;
    var n := s.pushers[t].n;
    var r := DoSwap(s, t);
    InHandFacts(s, t);
    Appended(s.order, s.base, s.head, s.tail, s.at, n);
    AppendedLinks(s.order, s.base, s.next, s.owed, n, Pusher(t));
    AppendedOwed(s.order, s.base, s.owed, s.pushers, s.taker, n, Pusher(t), r.pushers, r.taker);
    PlacedKept(s.order, s.base, s.pushers, s.at, r.order, t, r.pushers, n, r.at);
    PushersKept(s.pushers, s.next, s.at, s.owed, r.pushers, r.next, r.at, r.owed, t);
    assert r.order[..r.base] == s.order[..s.base];
  }

  // ----- a link is stored

  lemma LinkStored(order: seq<Node>, base: nat, next: map<Node, Node>, owed: map<nat, Who>, head: Node, tail: Node,
                   at: map<Node, Place>, i: nat)
    requires Ordered(order, base, head, tail, at) && Linked(order, base, next, owed) && base < i < |order| && i in owed
    ensures Linked(order, base, next[order[i - 1] := order[i]], owed - {i})
  {
    var prev := order[i - 1];
    forall j | base <= j < |order| && j != i - 1 ensures order[j] != prev {
      assert Is(at, order[j], InOrder(j)) && Is(at, prev, InOrder(i - 1));
    }
  }

  lemma OwedLess(order: seq<Node>, base: nat, owed: map<nat, Who>, ps: map<Tid, Push>, k: Pop,
                 i: nat, qs: map<Tid, Push>, l: Pop)
    requires Owed(order, base, owed, ps, k) && i in owed
    requires forall t | t in ps && ps[t].Linking? && Pusher(t) != owed[i] :: t in qs && qs[t] == ps[t]
    requires k.StubLinking? && !owed[i].Taker? ==> l == k
    ensures Owed(order, base, owed - {i}, qs, l)
  {
    assert OwedBy(order, i, owed[i], ps, k);
    forall j | j in owed && j != i ensures OwedBy(order, j, owed[j], qs, l) && base < j {
      assert OwedBy(order, j, owed[j], ps, k);
    }
  }

  lemma LinkFacts(s: State, t: Tid)
    requires Inv(s) && t in s.pushers && s.pushers[t].Linking?
    ensures var g := s.pushers[t];
            && g.i in s.owed && s.owed[g.i] == Pusher(t) && s.base < g.i < |s.order|
            && g.n == s.order[g.i] && g.prev == s.order[g.i - 1] && Is(s.at, g.prev, InOrder(g.i - 1))
  {
    var g := s.pushers[t];
    assert PusherOk(g, t, s.next, s.at, s.owed);
    assert OwedBy(s.order, g.i, s.owed[g.i], s.pushers, s.taker);
    assert Is(s.at, s.order[g.i - 1], InOrder(g.i - 1));
  }

  lemma LinkKeeps(s: State, t: Tid)
    requires Inv(s) && t in s.pushers && s.pushers[t].Linking?
    ensures Inv(DoLink(s, t))
  {
    hide Ordered, Placed, Linked, Owed, Pushers;
    var g := s.pushers[t];
    var r := DoLink(s, t);
    LinkFacts(s, t);
    LinkStored(s.order, s.base, s.next, s.owed, s.head, s.tail, s.at, g.i);
    OwedLess(s.order, s.base, s.owed, s.pushers, s.taker, g.i, r.pushers, r.taker);
    PlacedKept(s.order, s.base, s.pushers, s.at, s.order, t, r.pushers, g.prev, r.at);
    PushersKept(s.pushers, s.next, s.at, s.owed, r.pushers, r.next, r.at, r.owed, t);
  }

  // ----- the taker's end moves on

  lemma Advanced(order: seq<Node>, base: nat, head: Node, tail: Node, at: map<Node, Place>)
    requires Ordered(order, base, head, tail, at) && base + 1 < |order|
    ensures Ordered(order, base + 1, head, order[base + 1], at - {tail}) && Is(at, tail, InOrder(base))
  {
    assert Is(at, order[base], InOrder(base));
    forall i | base + 1 <= i < |order| ensures Is(at - {tail}, order[i], InOrder(i)) {
      assert Is(at, order[i], InOrder(i));
    }
  }

  lemma AdvancedPlaces(order: seq<Node>, base: nat, ps: map<Tid, Push>, at: map<Node, Place>)
    requires Placed(order, base, ps, at) && base + 1 < |order|
    ensures Placed(order, base + 1, ps, at - {order[base]})
  {
    forall n | n in at - {order[base]} ensures PlacedAt(order, base + 1, ps, n, at[n]) {
      assert PlacedAt(order, base, ps, n, at[n]);
    }
  }

  lemma AdvancedOwed(order: seq<Node>, base: nat, owed: map<nat, Who>, ps: map<Tid, Push>, k: Pop, l: Pop)
    requires Owed(order, base, owed, ps, k) && base + 1 !in owed && !k.StubLinking?
    ensures Owed(order, base + 1, owed, ps, l)
  {
    forall i | i in owed ensures OwedBy(order, i, owed[i], ps, l) && base + 1 < i {
      assert OwedBy(order, i, owed[i], ps, k);
    }
  }

  lemma AdvancedPushers(ps: map<Tid, Push>, next: map<Node, Node>, at: map<Node, Place>, owed: map<nat, Who>, n: Node)
    requires Pushers(ps, next, at, owed) && (n in at ==> !at[n].InHand?)
    ensures Pushers(ps, next, at - {n}, owed)
  {
    forall t | t in ps ensures PusherOk(ps[t], t, next, at - {n}, owed) {
      assert PusherOk(ps[t], t, next, at, owed);
    }
  }

  /** A link from the taker's end is there exactly when its follower is in and not owed. */
  lemma NextFacts(s: State)
    requires Inv(s)
    ensures match NextOf(s, s.tail)
            case None => s.base + 1 == |s.order| || (s.base + 1 in s.owed && s.base + 1 < |s.order|)
            case Some(n) => s.base + 1 < |s.order| && n == s.order[s.base + 1] && s.base + 1 !in s.owed
  {
    if s.base + 1 < |s.order| {
      assert s.base + 1 in s.owed ==> Null(s.next, s.order[s.base]);
      assert s.base + 1 !in s.owed ==> Points(s.next, s.order[s.base], s.order[s.base + 1]);
    }
  }

  lemma OwedFlight(s: State, i: nat)
    requires Inv(s) && i in s.owed && !s.taker.StubLinking?
    ensures PushUnderWay(s.owed)
  {
    assert OwedBy(s.order, i, s.owed[i], s.pushers, s.taker);
  }

  lemma AdvanceKeeps(s: State, n: Node, l: Pop)
    requires Inv(s) && NextOf(s, s.tail) == Some(n) && !s.taker.StubLinking?
    ensures var r := Advance(s, n);
            && Ordered(r.order, r.base, r.head, r.tail, r.at) && Placed(r.order, r.base, r.pushers, r.at)
            && Linked(r.order, r.base, r.next, r.owed) && Pushers(r.pushers, r.next, r.at, r.owed)
            && Owed(r.order, r.base, r.owed, r.pushers, l)
    ensures Items(s.order[..s.base + 1]) == if s.tail == STUB then s.taken else s.taken + [s.tail]
  {
    NextFacts(s);
    Advanced(s.order, s.base, s.head, s.tail, s.at);
    AdvancedPlaces(s.order, s.base, s.pushers, s.at);
    AdvancedPushers(s.pushers, s.next, s.at, s.owed, s.tail);
    AdvancedOwed(s.order, s.base, s.owed, s.pushers, s.taker, l);
    assert s.order[..s.base + 1][..s.base] == s.order[..s.base];
  }

  /** No other place in the queue holds the node at the taker's end. */
  lemma Distinct(s: State, i: nat)
    requires Inv(s) && s.base < i < |s.order|
    ensures s.order[i] != s.tail
  {
    assert Is(s.at, s.order[i], InOrder(i)) && Is(s.at, s.order[s.base], InOrder(s.base));
  }

  lemma HandOutKeeps(s: State, n: Node)
    requires Inv(s) && NextOf(s, s.tail) == Some(n) && s.tail != STUB
    requires !s.taker.StubLinking?
    ensures Inv(HandOut(s, s.tail, n))
  {
    hide Ordered, Placed, Linked, Owed, Pushers, Items;
    AdvanceKeeps(s, n, Resting);
  }

  lemma PeekKeeps(s: State)
    requires Inv(s) && s.taker.Peeking?
    ensures Inv(DoPeek(s))
  {
    hide Ordered, Placed, Linked, Owed, Pushers, Items;
    NextFacts(s);
    if NextOf(s, s.tail).Some? {
      var n := NextOf(s, s.tail).value;
      if s.tail == STUB {
        Distinct(s, s.base + 1);
        Advanced(s.order, s.base, s.head, s.tail, s.at);
        AdvanceKeeps(s, n, Loading(n));
      } else {
        HandOutKeeps(s, n);
      }
    } else {
      OwedKept(s.order, s.base, s.owed, s.pushers, s.taker, s.pushers, DoPeek(s).taker);
      if s.base + 1 in s.owed {
        OwedFlight(s, s.base + 1);
      }
    }
  }

  lemma LoadKeeps(s: State)
    requires Inv(s) && s.taker.Loading?
    ensures Inv(DoLoad(s))
  {
    hide Ordered, Placed, Linked, Owed, Pushers, Items;
    NextFacts(s);
    if NextOf(s, s.tail).Some? {
      HandOutKeeps(s, NextOf(s, s.tail).value);
    } else {
      OwedKept(s.order, s.base, s.owed, s.pushers, s.taker, s.pushers, DoLoad(s).taker);
      if s.base + 1 in s.owed {
        OwedFlight(s, s.base + 1);
      }
    }
  }

  /** A change of the taker's program counter alone. */
  lemma TakerKeeps(s: State, r: State)
    requires Inv(s) && r == s.(taker := r.taker, answer := r.answer, overlap := r.overlap)
    requires !s.taker.StubLinking? && !r.taker.StubLinking? && TakerOk(r)
    ensures Inv(r)
  {
    hide Ordered, Placed, Linked, Owed, Pushers, Items;
    OwedKept(s.order, s.base, s.owed, s.pushers, s.taker, s.pushers, r.taker);
  }

  /** The head on the taker's node: it is alone, and the stub is out of the queue. */
  lemma Alone(s: State)
    requires Inv(s) && s.head == s.tail
    ensures s.base + 1 == |s.order| && (s.tail != STUB ==> STUB !in s.at)
  {
    assert Is(s.at, s.order[s.base], InOrder(s.base));
    assert Is(s.at, s.order[|s.order| - 1], InOrder(|s.order| - 1));
    assert STUB in s.at ==> PlacedAt(s.order, s.base, s.pushers, STUB, s.at[STUB]);
  }

  lemma CheckKeeps(s: State)
    requires Inv(s) && s.taker.Checking?
    ensures s.head == s.taker.cur ==> Inv(s.(taker := StubClearing(s.taker.cur)))
    ensures Inv(Answered(s, Busy))
  {
    if s.head == s.taker.cur {
      Alone(s);
      TakerKeeps(s, s.(taker := StubClearing(s.taker.cur)));
    }
    TakerKeeps(s, Answered(s, Busy));
  }

  lemma PutClearKeeps(s: State)
    requires Inv(s) && s.taker.StubClearing?
    ensures Inv(s.(next := s.next - {STUB}, taker := StubSwapping(s.taker.cur)))
  {
    hide Placed, Owed;
    var r := s.(next := s.next - {STUB}, taker := StubSwapping(s.taker.cur));
    OwedKept(s.order, s.base, s.owed, s.pushers, s.taker, s.pushers, r.taker);
    forall i | s.base <= i < |s.order| ensures s.order[i] != STUB {
      assert Is(s.at, s.order[i], InOrder(i));
    }
    forall t | t in s.pushers ensures PusherOk(s.pushers[t], t, r.next, r.at, r.owed) {
      assert PusherOk(s.pushers[t], t, s.next, s.at, s.owed);
    }
  }

  lemma PushersStub(ps: map<Tid, Push>, next: map<Node, Node>, at: map<Node, Place>, owed: map<nat, Who>,
                    i: nat, owed': map<nat, Who>, next': map<Node, Node>, at': map<Node, Place>)
    requires Pushers(ps, next, at, owed)
    requires (i !in owed && owed' == owed[i := Taker]) || (i in owed && owed[i].Taker? && owed' == owed - {i})
    requires at' == at || (STUB !in at && at' == at[STUB := InOrder(i)])
    requires forall n | n in at && at[n].InHand? && n !in next :: n !in next'
    ensures Pushers(ps, next', at', owed')
  {
    forall t | t in ps ensures PusherOk(ps[t], t, next', at', owed') {
      assert PusherOk(ps[t], t, next, at, owed);
    }
  }

  lemma PutSwapKeeps(s: State)
    requires Inv(s) && s.taker.StubSwapping?
    ensures Inv(DoPutSwap(s))
  {
    hide Placed, Linked, Owed, Pushers;
    var r := DoPutSwap(s);
    var i := |s.order|;
    Appended(s.order, s.base, s.head, s.tail, s.at, STUB);
    AppendedLinks(s.order, s.base, s.next, s.owed, STUB, Taker);
    AppendedOwed(s.order, s.base, s.owed, s.pushers, s.taker, STUB, Taker, s.pushers, r.taker);
    StubPlaced(s.order, s.base, s.pushers, s.at);
    PushersStub(s.pushers, s.next, s.at, s.owed, i, r.owed, s.next, r.at);
    assert r.order[..r.base] == s.order[..s.base];
    assert PushUnderWay(r.owed) ==> PushUnderWay(s.owed);
  }

  lemma StubPlaced(order: seq<Node>, base: nat, ps: map<Tid, Push>, at: map<Node, Place>)
    requires Placed(order, base, ps, at) && base < |order|
    ensures Placed(order + [STUB], base, ps, at[STUB := InOrder(|order|)])
  {
    forall n | n in at ensures PlacedAt(order + [STUB], base, ps, n, at[n]) {
      assert PlacedAt(order, base, ps, n, at[n]);
    }
  }

  lemma PutLinkFacts(s: State)
    requires Inv(s) && s.taker.StubLinking?
    ensures var k := s.taker;
            && k.i in s.owed && s.owed[k.i].Taker? && s.base < k.i < |s.order|
            && s.order[k.i] == STUB && k.prev == s.order[k.i - 1] && Is(s.at, k.prev, InOrder(k.i - 1))
  {
    var k := s.taker;
    assert OwedBy(s.order, k.i, s.owed[k.i], s.pushers, s.taker);
    assert Is(s.at, s.order[k.i - 1], InOrder(k.i - 1));
  }

  lemma PutLinkKeeps(s: State)
    requires Inv(s) && s.taker.StubLinking?
    ensures var k := s.taker; Inv(LinkTo(s, k.prev, STUB, k.i).(taker := Reloading(k.cur)))
  {
    hide Ordered, Placed, Linked, Owed, Pushers;
    var k := s.taker;
    var r := LinkTo(s, k.prev, STUB, k.i).(taker := Reloading(k.cur));
    PutLinkFacts(s);
    LinkStored(s.order, s.base, s.next, s.owed, s.head, s.tail, s.at, k.i);
    OwedLess(s.order, s.base, s.owed, s.pushers, s.taker, k.i, s.pushers, r.taker);
    PushersStub(s.pushers, s.next, s.at, s.owed, k.i, r.owed, r.next, s.at);
  }

  lemma ReloadKeeps(s: State)
    requires Inv(s) && s.taker.Reloading?
    ensures Inv(DoReload(s))
  {
    hide Ordered, Placed, Linked, Owed, Pushers, Items;
    NextFacts(s);
    if NextOf(s, s.tail).Some? {
      HandOutKeeps(s, NextOf(s, s.tail).value);
    } else {
      TakerKeeps(s, DoReload(s));
    }
  }

  /** Every step keeps the invariant. */
  lemma StepKeeps(s: State, a: Action)
    requires Inv(s) && Enabled(s, a)
    ensures Inv(Apply(s, a))
  {
    hide Inv, DoSwap, DoLink, DoPeek, DoLoad, DoPutSwap, DoReload, Answered, LinkTo;
    match a
    case Begin(t, n) => BeginKeeps(s, t, n);
    case Clear(t) => ClearKeeps(s, t);
    case Swap(t) => SwapKeeps(s, t);
    case Link(t) => LinkKeeps(s, t);
    case Start => StartKeeps(s);
    case Peek => PeekKeeps(s);
    case LookEmpty => LookKeeps(s);
    case Load => LoadKeeps(s);
    case Check => CheckKeeps(s);
    case PutClear => PutClearKeeps(s);
    case PutSwap => PutSwapKeeps(s);
    case PutLink => PutLinkKeeps(s);
    case Reload => ReloadKeeps(s);
  }

  lemma StartKeeps(s: State)
    requires Inv(s) && s.taker.Resting?
    ensures Inv(s.(taker := Peeking, overlap := s.owed != map[]))
  {
    TakerKeeps(s, s.(taker := Peeking, overlap := s.owed != map[]));
  }

  lemma LookKeeps(s: State)
    requires Inv(s) && s.taker.Emptying?
    ensures Inv(Answered(s, Empty)) && Inv(Answered(s, Busy))
  {
    TakerKeeps(s, Answered(s, Empty));
    TakerKeeps(s, Answered(s, Busy));
  }

  // ----- every run

  ghost predicate Reaches(s: State, run: seq<Action>, r: State)
    decreases |run|
  {
    if run == [] then r == s else Enabled(s, run[0]) && Reaches(Apply(s, run[0]), run[1..], r)
  }

  ghost predicate Reachable(r: State) {
    exists run: seq<Action> :: Reaches(Init(), run, r)
  }

  lemma {:induction false} RunKeeps(s: State, run: seq<Action>, r: State)
    requires Inv(s) && Reaches(s, run, r)
    ensures Inv(r)
    decreases |run|
  {
    hide Inv, Apply, Enabled;
    if run != [] {
      StepKeeps(s, run[0]);
      RunKeeps(Apply(s, run[0]), run[1..], r);
    }
  }

  lemma ReachableInv(r: State)
    requires Reachable(r)
    ensures Inv(r)
  {
    hide Inv, Reaches;
    var run: seq<Action> :| Reaches(Init(), run, r);
    InitInv();
    RunKeeps(Init(), run, r);
  }

  lemma {:induction false} ItemsSplit(a: seq<Node>, b: seq<Node>)
    ensures Items(a + b) == Items(a) + Items(b)
    decreases |b|
  {
    if b == [] {
      assert a + b == a;
    } else {
      ItemsSplit(a, b[..|b| - 1]);
      assert (a + b)[..|a + b| - 1] == a + b[..|b| - 1];
    }
  }

  /** In every state: what was pushed, in the order of the swaps, is what was taken, in the order
      it was taken, followed by what is in the queue. Nothing is lost, doubled or reordered, and no
      pusher ever stores through a node the queue gave away. */
  lemma Fifo(r: State)
    requires Reachable(r)
    ensures !r.fault && r.base <= |r.order| && Pushed(r) == r.taken + Content(r)
  {
    hide Ordered, Placed, Linked, Owed, Pushers, TakerOk, Reachable, Items;
    ReachableInv(r);
    ItemsSplit(r.order[..r.base], r.order[r.base..]);
    assert r.order[..r.base] + r.order[r.base..] == r.order;
  }

  lemma ItemsOne(n: Node)
    ensures Items([n]) == if n == STUB then [] else [n]
  {
    assert [n][..0] == [];
  }

  /** The ways a pop ends. */
  lemma Ends(s: State, a: Action)
    requires Enabled(s, a) && !s.taker.Resting? && Apply(s, a).taker.Resting?
    requires s.taker.Loading? || s.taker.Reloading? ==> s.taker.cur == s.tail && s.tail != STUB
    ensures || (s.tail != STUB && NextOf(s, s.tail).Some? && Apply(s, a) == HandOut(s, s.tail, NextOf(s, s.tail).value))
            || (s.taker.Emptying? && Apply(s, a) == Answered(s, if s.head == STUB then Empty else Busy))
            || (s.taker.Checking? && s.head != s.taker.cur && Apply(s, a) == Answered(s, Busy))
            || (s.taker.Reloading? && NextOf(s, s.tail).None? && Apply(s, a) == Answered(s, Busy))
  {
  }

  lemma ItemAnswer(s: State, n: Node)
    requires Inv(s) && NextOf(s, s.tail) == Some(n) && s.tail != STUB
    ensures s.base + 1 <= |s.order| && Content(s) == [s.tail] + Content(HandOut(s, s.tail, n))
  {
    hide Placed, Linked, Owed, Pushers, TakerOk;
    NextFacts(s);
    ItemsOne(s.tail);
    ItemsSplit([s.tail], s.order[s.base + 1..]);
    assert s.order[s.base..] == [s.tail] + s.order[s.base + 1..];
  }

  lemma EmptyAnswer(s: State)
    requires Inv(s) && s.tail == STUB && s.head == STUB
    ensures s.base <= |s.order| && Content(s) == []
  {
    hide Placed, Linked, Owed, Pushers, TakerOk;
    Alone(s);
    ItemsOne(STUB);
    assert s.order[s.base..] == [STUB];
  }

  lemma BusyAnswer(s: State)
    requires Inv(s)
    requires || (s.taker.Emptying? && s.head != STUB) || (s.taker.Checking? && s.head != s.taker.cur)
             || (s.taker.Reloading? && NextOf(s, s.taker.cur).None?)
    ensures s.overlap
  {
    hide Placed, Linked, Owed, Pushers;
    NextFacts(s);
    if s.taker.Reloading? {
      OwedFlight(s, s.base + 1);
    }
  }

  /** What the taker stands on near the end of a pop. */
  lemma TakerFacts(s: State)
    requires Inv(s)
    ensures s.taker.Loading? || s.taker.Reloading? ==> s.taker.cur == s.tail && s.tail != STUB
    ensures s.taker.Emptying? ==> s.tail == STUB
    ensures s.base <= |s.order|
  {
    hide Placed, Linked, Owed, Pushers;
  }

  /** The answer a pop left in r is true of s, where the pop ended: an item is the first in the
      queue, Empty means the queue is empty, and Busy means a push was under way during the pop. */
  predicate Truthful(s: State, r: State) {
    && s.base <= |s.order|
    && r.base <= |r.order|
    && r.answer.Some?
    && match r.answer.value
       case Item(n) => Content(s) == [n] + Content(r) && r.taken == s.taken + [n]
       case Empty => Content(s) == []
       case Busy => s.overlap
  }

  lemma ItemTruthful(s: State, n: Node)
    requires Inv(s) && NextOf(s, s.tail) == Some(n) && s.tail != STUB
    ensures Truthful(s, HandOut(s, s.tail, n))
  {
    hide Inv, Content;
    ItemAnswer(s, n);
  }

  lemma EmptyTruthful(s: State)
    requires Inv(s) && s.tail == STUB && s.head == STUB
    ensures Truthful(s, Answered(s, Empty))
  {
    hide Inv, Content;
    EmptyAnswer(s);
  }

  lemma BusyTruthful(s: State)
    requires Inv(s) && s.overlap
    ensures Truthful(s, Answered(s, Busy))
  {
    hide Content;
    TakerFacts(s);
  }

  /** The step that ends a pop tells the truth. */
  lemma PopAnswers(s: State, a: Action)
    requires Reachable(s) && Enabled(s, a) && !s.taker.Resting? && Apply(s, a).taker.Resting?
    ensures Truthful(s, Apply(s, a))
  {
    hide Reachable, Inv, Apply, Enabled, Truthful, HandOut, Answered, NextOf;
    ReachableInv(s);
    TakerFacts(s);
    Ends(s, a);
    if s.tail != STUB && NextOf(s, s.tail).Some? && Apply(s, a) == HandOut(s, s.tail, NextOf(s, s.tail).value) {
      ItemTruthful(s, NextOf(s, s.tail).value);
    } else if s.taker.Emptying? && s.head == STUB {
      EmptyTruthful(s);
    } else {
      BusyAnswer(s);
      BusyTruthful(s);
    }
  }

  /** The taker's look at both ends is exact, in a pop or between two. */
  lemma DrainedExactly(r: State)
    requires Reachable(r)
    ensures r.base <= |r.order| && (IsDrained(r) <==> Content(r) == [])
  {
    hide Inv, Content, Reachable;
    ReachableInv(r);
    if IsDrained(r) {
      EmptyAnswer(r);
    } else {
      NotDrained(r);
    }
  }

  lemma ItemIn(nodes: seq<Node>, i: nat)
    requires i < |nodes| && nodes[i] != STUB
    ensures Items(nodes) != []
  {
    hide Items;
    ItemsOne(nodes[i]);
    ItemsSplit([nodes[i]], nodes[i + 1..]);
    ItemsSplit(nodes[..i], [nodes[i]] + nodes[i + 1..]);
    assert nodes == nodes[..i] + ([nodes[i]] + nodes[i + 1..]);
  }

  lemma NotDrained(r: State)
    requires Inv(r) && !IsDrained(r)
    ensures r.base <= |r.order| && Content(r) != []
  {
    hide Placed, Linked, Owed, Pushers, TakerOk;
    var rest := r.order[r.base..];
    if |rest| > 1 {
      Distinct(r, r.base + 1);
    }
    // one of these two is an item
    ItemIn(rest, if rest[0] != STUB then 0 else 1);
  }
}
