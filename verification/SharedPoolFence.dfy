/** Why the pool's handshake needs its fence: the same machine with a fence that drains nothing loses
    a wake. */
module SharedPoolFence {
  import opened Prelude
  import opened SizeClasses
  import opened SharedPool
  import opened SharedPoolRuns

  /** As the machine, but the owner may pass its fence with the flag still in its store buffer. */
  predicate EnabledUnfenced(s: State, a: Action) {
    if a.Fence? then s.owner.Fencing? else Enabled(s, a)
  }

  function ApplyUnfenced(s: State, a: Action): State
    requires EnabledUnfenced(s, a)
  {
    if a.Fence? then s.(owner := Looking) else Apply(s, a)
  }

  ghost predicate ReachesUnfenced(s: State, run: seq<Action>, r: State)
    decreases |run|
  {
    if run == [] then r == s
    else EnabledUnfenced(s, run[0]) && ReachesUnfenced(ApplyUnfenced(s, run[0]), run[1..], r)
  }

  ghost predicate ReachableUnfenced(r: State) {
    exists run: seq<Action> :: ReachesUnfenced(Init(512), run, r)
  }

  lemma {:induction false} ReachesOn(s: State, run: seq<Action>, m: State, a: Action)
    requires ReachesUnfenced(s, run, m) && EnabledUnfenced(m, a)
    ensures ReachesUnfenced(s, run + [a], ApplyUnfenced(m, a))
    decreases |run|
  {
    hide ApplyUnfenced, EnabledUnfenced;
    if run == [] {
      assert ReachesUnfenced(ApplyUnfenced(m, a), [], ApplyUnfenced(m, a));
    } else {
      ReachesOn(ApplyUnfenced(s, run[0]), run[1..], m, a);
      assert (run + [a])[1..] == run[1..] + [a];
    }
  }

  lemma Then(m: State, a: Action) returns (r: State)
    requires ReachableUnfenced(m) && EnabledUnfenced(m, a)
    ensures ReachableUnfenced(r) && r == ApplyUnfenced(m, a)
  {
    hide ApplyUnfenced, EnabledUnfenced, ReachesUnfenced;
    var run: seq<Action> :| ReachesUnfenced(Init(512), run, m);
    ReachesOn(Init(512), run, m, a);
    r := ApplyUnfenced(m, a);
  }

  lemma Start() returns (r: State)
    ensures ReachableUnfenced(r) && r == Init(512)
  {
    r := Init(512);
    assert ReachesUnfenced(Init(512), [], r);
  }

  /** One buffer of the smallest class is out, and with it all of the cap. */
  lemma OneOut() returns (r: State)
    ensures ReachableUnfenced(r)
    ensures r == Init(512).(out := map[7 := Tag(0, 512)], refs := 2, books := Books(512, 0, 512, false),
                            m := map[7 := Alloc(ClassLayout(0), None, AtOut)])
  {
    hide ReachableUnfenced;
    r := Start();
    r := Then(r, Get(0));
    r := Then(r, Load);
    r := Then(r, Make);
    r := Then(r, Grant(Some(7)));
  }

  /** A waker queued and its flag not yet flushed. */
  lemma Waiting() returns (r: State)
    ensures ReachableUnfenced(r)
    ensures r == Init(512).(home := Home(None, false, [1], [], [1], [], []), out := map[7 := Tag(0, 512)], refs := 2,
                            books := Books(512, 0, 512, false), owner := Fencing, unflushed := true,
                            m := map[7 := Alloc(ClassLayout(0), None, AtOut)])
  {
    hide ReachableUnfenced;
    r := OneOut();
    r := Then(r, Wait(1));
    r := Then(r, Raise);
  }

  /** A giver has the buffer. */
  lemma Giving() returns (r: State)
    ensures ReachableUnfenced(r)
    ensures r == Init(512).(home := Home(None, false, [1], [], [1], [], []), refs := 2,
                            books := Books(512, 0, 512, false), owner := Fencing, unflushed := true,
                            givers := map[0 := Reading(7, Tag(0, 512))],
                            m := map[7 := Alloc(ClassLayout(0), None, AtGiver(0))])
  {
    hide ReachableUnfenced;
    r := Waiting();
    r := Then(r, Give(0, 7));
    assert r.out == map[];
  }

  /** A waker queued and its flag not yet flushed, and a giver about to push the buffer. */
  lemma Racing() returns (r: State)
    ensures ReachableUnfenced(r)
    ensures r == Init(512).(home := Home(None, false, [1], [], [1], [], []), refs := 2,
                            books := Books(512, 0, 512, false), owner := Fencing, unflushed := true,
                            givers := map[0 := Trying(7, Tag(0, 512), None)],
                            m := map[7 := Alloc(ClassLayout(0), Some(Back(None, Tag(0, 512))), AtGiver(0))])
  {
    hide ReachableUnfenced;
    r := Giving();
    r := Then(r, Read(0));
    r := Then(r, Write(0));
  }

  /** The owner has looked and seen nothing. */
  lemma Looked() returns (r: State)
    ensures ReachableUnfenced(r)
    ensures r == Init(512).(home := Home(None, false, [1], [], [1], [], []), refs := 2,
                            books := Books(512, 0, 512, false), unflushed := true,
                            givers := map[0 := Trying(7, Tag(0, 512), None)],
                            m := map[7 := Alloc(ClassLayout(0), Some(Back(None, Tag(0, 512))), AtGiver(0))])
  {
    hide ReachableUnfenced;
    r := Racing();
    r := Then(r, Fence);
    r := Then(r, Look);
  }

  /** The giver has pushed the buffer. */
  lemma Pushed() returns (r: State)
    ensures ReachableUnfenced(r) && r.owner.Idle? && r.unflushed && r.out == map[]
    ensures r.home == Home(Some(7), false, [1], [7], [1], [], [])
    ensures |r.free| == |CLASSES| && r.closing.Open? && r.refs == 2 && r.givers == map[0 := Checking]
  {
    hide ReachableUnfenced;
    r := Looked();
    r := Then(r, Cas(0, false));
  }

  /** The owner queues a waker, looks with its flag not yet flushed, and sees nothing; the giver, one
      step behind, pushes its buffer and sees no flag. Nobody is left to wake the waker. */
  lemma FenceNeeded() returns (r: State)
    ensures ReachableUnfenced(r) && Quiet(r) && r.home.waiters == [1] && r.home.head == Some(7) && r.out == map[]
  {
    hide ReachableUnfenced;
    r := Pushed();
    r := Then(r, Check(0));
    r := Then(r, Flush);
  }
}
