/** The race for a shard-local static's key (src/shard_local.rs): any number of threads call `key` on
    any number of statics, each call in up to three atomic steps. */
module ShardKey {
  import opened Prelude

  type Tid = nat
  type Static = nat

  /** Where a call is: about to take a number, or about to offer it to the static. */
  datatype Call = Fetching(v: Static) | Offering(v: Static, mine: nat)

  /** `fields` holds each static's key plus one, with the statics never used left out (their field is
      0). `handed` lists the statics numbers were taken for, and `answers` what each call answered;
      no step reads either. */
  datatype State = State(
    keys: nat,
    fields: map<Static, nat>,
    calls: map<Tid, Call>,
    handed: seq<Static>,
    answers: seq<(Static, nat)>)

  datatype Action = Load(t: Tid, v: Static) | Fetch(t: Tid) | Offer(t: Tid)

  function Init(): State {
    State(0, map[], map[], [], [])
  }

  function Field(s: State, v: Static): nat {
    if v in s.fields then s.fields[v] else 0
  }

  /** `x - 1` and `x + 1` on 64 bits. */
  function Pred(x: nat): nat {
    if x == 0 then TWO_64 - 1 else x - 1
  }

  function Succ(x: nat): nat {
    if x + 1 == TWO_64 then 0 else x + 1
  }

  predicate Enabled(s: State, a: Action) {
    match a
    case Load(t, v) => t !in s.calls
    case Fetch(t) => t in s.calls && s.calls[t].Fetching?
    case Offer(t) => t in s.calls && s.calls[t].Offering?
  }

  function Answer(s: State, t: Tid, v: Static, field: nat): State {
    s.(answers := s.answers + [(v, Pred(field))], calls := s.calls - {t})
  }

  function Apply(s: State, a: Action): State
    requires Enabled(s, a)
  {
    match a
    case Load(t, v) =>
      if Field(s, v) != 0 then Answer(s, t, v, Field(s, v)) else s.(calls := s.calls[t := Fetching(v)])
    case Fetch(t) =>
      var v := s.calls[t].v;
      s.(keys := Succ(s.keys), calls := s.calls[t := Offering(v, Succ(s.keys))], handed := s.handed + [v])
    case Offer(t) =>
      var v, mine := s.calls[t].v, s.calls[t].mine;
      if Field(s, v) == 0 then Answer(s.(fields := s.fields[v := mine]), t, v, mine)
      else Answer(s, t, v, Field(s, v))
  }

  ghost predicate Reaches(s: State, run: seq<Action>, r: State)
    decreases |run|
  {
    if run == [] then r == s
    else Enabled(s, run[0]) && Reaches(Apply(s, run[0]), run[1..], r)
  }

  ghost predicate Reachable(r: State) {
    exists run: seq<Action> :: Reaches(Init(), run, r)
  }

  /** Every two calls answered the same key exactly when they were on the same static. */
  ghost predicate Coherent(answers: seq<(Static, nat)>) {
    forall i, j | 0 <= i < |answers| && 0 <= j < |answers| ::
      answers[i].0 == answers[j].0 <==> answers[i].1 == answers[j].1
  }

  // ----- what every step keeps while the counter has not come round

  /** `n` is a number taken for `v`. */
  predicate TakenFor(handed: seq<Static>, n: nat, v: Static) {
    1 <= n <= |handed| && handed[n - 1] == v
  }

  ghost predicate Inv(s: State) {
    && s.keys == |s.handed| < TWO_64
    && (forall v | v in s.fields :: TakenFor(s.handed, s.fields[v], v))
    && (forall t | t in s.calls && s.calls[t].Offering? :: TakenFor(s.handed, s.calls[t].mine, s.calls[t].v))
    && (forall i | 0 <= i < |s.answers| ::
          s.answers[i].0 in s.fields && s.fields[s.answers[i].0] == s.answers[i].1 + 1)
  }

  lemma StepKeeps(s: State, a: Action)
    requires Inv(s) && Enabled(s, a) && |Apply(s, a).handed| < TWO_64
    ensures Inv(Apply(s, a))
  {
    var r := Apply(s, a);
    assert forall n, v | TakenFor(s.handed, n, v) :: TakenFor(r.handed, n, v);
  }

  lemma {:induction false} RunKeeps(s: State, run: seq<Action>, r: State)
    requires Inv(s) && Reaches(s, run, r) && |r.handed| < TWO_64
    ensures Inv(r)
    decreases |run|
  {
    if run != [] {
      HandedGrows(Apply(s, run[0]), run[1..], r);
      StepKeeps(s, run[0]);
      RunKeeps(Apply(s, run[0]), run[1..], r);
    }
  }

  lemma {:induction false} HandedGrows(s: State, run: seq<Action>, r: State)
    requires Reaches(s, run, r)
    ensures |s.handed| <= |r.handed|
    decreases |run|
  {
    if run != [] {
      HandedGrows(Apply(s, run[0]), run[1..], r);
    }
  }

  /** While fewer than 2^64 numbers were taken, all calls on one static answer one key, and two
      statics never share one, whatever the interleaving. */
  lemma OneKeyEach(r: State)
    requires Reachable(r) && |r.handed| < TWO_64
    ensures Coherent(r.answers)
  {
    var run: seq<Action> :| Reaches(Init(), run, r);
    RunKeeps(Init(), run, r);
  }

  // ----- and no longer

  /** The state after one thread used statics 0 to n - 1, one after the other. */
  function Used(n: nat): State
    requires n < TWO_64
  {
    State(n, map v: nat | v < n :: Succ(v), map[], seq(n, v => v), seq(n, v => (v, v)))
  }

  lemma {:induction false} ReachesOn(s: State, run: seq<Action>, m: State, a: Action)
    requires Reaches(s, run, m) && Enabled(m, a)
    ensures Reaches(s, run + [a], Apply(m, a))
    decreases |run|
  {
    hide Apply, Enabled;
    if run == [] {
      assert Reaches(Apply(m, a), [], Apply(m, a));
    } else {
      ReachesOn(Apply(s, run[0]), run[1..], m, a);
      assert (run + [a])[1..] == run[1..] + [a];
    }
  }

  lemma StepReachable(m: State, a: Action)
    requires Reachable(m) && Enabled(m, a)
    ensures Reachable(Apply(m, a))
  {
    hide Apply, Enabled, Reaches;
    var run: seq<Action> :| Reaches(Init(), run, m);
    ReachesOn(Init(), run, m, a);
  }

  lemma {:induction false} UsedReachable(n: nat)
    requires n < TWO_64
    ensures Reachable(Used(n))
  {
    hide Reachable;
    if n == 0 {
      FirstReachable();
    } else {
      UsedReachable(n - 1);
      var s := Used(n - 1);
      StepReachable(s, Load(0, n - 1));
      var one := Apply(s, Load(0, n - 1));
      StepReachable(one, Fetch(0));
      var two := Apply(one, Fetch(0));
      StepReachable(two, Offer(0));
      assert Apply(two, Offer(0)) == Used(n);
    }
  }

  lemma FirstReachable()
    ensures Reachable(Used(0))
  {
    assert Used(0) == Init();
    assert Reaches(Init(), [], Init());
  }

  /** The 2^64-th number is 0, which a static takes for unused: two calls racing on one static then
      answer two keys. */
  lemma ComesRound() returns (r: State)
    ensures Reachable(r) && |r.handed| == TWO_64 && !Coherent(r.answers)
  {
    hide Reachable;
    var v := TWO_64 - 2;
    UsedReachable(v);
    r := Used(v);
    StepReachable(r, Load(0, v));
    r := Apply(r, Load(0, v));
    StepReachable(r, Load(1, v));
    r := Apply(r, Load(1, v));
    StepReachable(r, Fetch(0));
    r := Apply(r, Fetch(0));
    StepReachable(r, Fetch(1));
    r := Apply(r, Fetch(1));
    StepReachable(r, Offer(1));
    r := Apply(r, Offer(1));
    StepReachable(r, Offer(0));
    r := Apply(r, Offer(0));
    assert r.answers[v] == (v, TWO_64 - 1) && r.answers[v + 1] == (v, TWO_64 - 2);
  }

  /** A bound on the numbers taken keeps every run coherent exactly when it is below 2^64. */
  lemma OneKeyEachExactly(bound: nat)
    ensures (forall r | Reachable(r) && |r.handed| <= bound :: Coherent(r.answers)) <==> bound < TWO_64
  {
    if bound < TWO_64 {
      forall r | Reachable(r) && |r.handed| <= bound ensures Coherent(r.answers) {
        OneKeyEach(r);
      }
    } else {
      var r := ComesRound();
    }
  }
}
