/** What the inbox's `is_empty` may miss: with a push that has swapped and not linked when the stub is
    put back, the queue looks empty from every thread but its taker's. */
module InboxLooks {
  import opened Prelude
  import opened Inbox
  import opened InboxProofs

  lemma {:induction false} ReachesOn(s: State, run: seq<Action>, m: State, a: Action)
    requires Reaches(s, run, m) && Enabled(m, a)
    ensures Reaches(s, run + [a], Apply(m, a))
    decreases |run|
  {
    hide Apply, Enabled;
    if run == [] {
      assert Reaches(Apply(m, a), [], Apply(m, a));
    } else {
      ReachesOn(Apply(s, run[0]), run[1..], m, a);
      assert (run + [a])[1..] == run[1..] + [a];
    }
  }

  lemma Then(m: State, a: Action) returns (r: State)
    requires Reachable(m) && Enabled(m, a)
    ensures Reachable(r) && r == Apply(m, a)
  {
    hide Apply, Enabled, Reaches;
    var run: seq<Action> :| Reaches(Init(), run, m);
    ReachesOn(Init(), run, m, a);
    r := Apply(m, a);
  }

  lemma AtFirst() returns (r: State)
    ensures Reachable(r) && r == Init()
  {
    r := Init();
    assert Reaches(Init(), [], r);
  }

  lemma Swapped() returns (r: State)
    ensures Reachable(r)
    ensures r == Init().(head := 1, pushers := map[0 := Linking(1, 0, 1)], order := [0, 1],
                         at := map[0 := InOrder(0), 1 := InOrder(1)], owed := map[1 := Pusher(0)], overlap := true)
  {
    hide Reachable;
    r := AtFirst();
    r := Then(r, Begin(0, 1));
    r := Then(r, Clear(0));
    r := Then(r, Swap(0));
  }

  lemma OneIn() returns (r: State)
    ensures Reachable(r)
    ensures r == Init().(next := map[0 := 1], head := 1, order := [0, 1], at := map[0 := InOrder(0), 1 := InOrder(1)],
                         overlap := true)
  {
    hide Reachable;
    r := Swapped();
    r := Then(r, Link(0));
  }

  /** The taker on the last item, about to put the stub back, and a second push swapped in. */
  lemma Racing() returns (r: State)
    ensures Reachable(r)
    ensures r == Init().(next := map[0 := 1], head := 2, tail := 1, pushers := map[0 := Linking(2, 1, 2)],
                         taker := StubClearing(1), order := [0, 1, 2], base := 1,
                         at := map[1 := InOrder(1), 2 := InOrder(2)], owed := map[2 := Pusher(0)], overlap := true)
  {
    hide Reachable;
    r := OneIn();
    r := Then(r, Start);
    r := Then(r, Peek);
    r := Then(r, Load);
    r := Then(r, Check);
    r := Then(r, Begin(0, 2));
    r := Then(r, Clear(0));
    r := Then(r, Swap(0));
  }

  /** Two items in the queue, the taker at rest, and every other thread's look says empty; the
      taker's own does not. */
  lemma LooksEmpty() returns (r: State)
    ensures Reachable(r) && r.taker.Resting? && r.base <= |r.order| && Content(r) == [1, 2]
    ensures IsEmpty(r) && !IsDrained(r)
  {
    hide Reachable;
    r := Racing();
    r := Then(r, PutClear);
    r := Then(r, PutSwap);
    r := Then(r, PutLink);
    r := Then(r, Reload);
    assert r.order[r.base..] == [1, 2, 0];
    TwoItems();
  }

  lemma TwoItems()
    ensures Items([1, 2, 0]) == [1, 2]
  {
    assert [1, 2, 0][..2] == [1, 2] && [1, 2][..1] == [1] && [1][..0] == [];
    assert Items([1]) == [1] && Items([1, 2]) == [1, 2];
  }

  /** The look any thread may take is right exactly when the taker's end is the stub or the look says
      there is something. */
  lemma LooksExactly(r: State)
    requires Reachable(r)
    ensures r.base <= |r.order| && ((IsEmpty(r) <==> Content(r) == []) <==> r.tail == STUB || !IsEmpty(r))
  {
    DrainedExactly(r);
  }
}
