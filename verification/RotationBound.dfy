/** How far the live segment can outgrow its bound: any number of writers, each appending under the
    chain's lock and then, in a second turn of that lock, closing the segment if it is due. */
module RotationBound {
  /** The chain's indices, and the writers between their append and their turn to rotate. */
  datatype State = State(base: int, n: int, pending: set<nat>) {
    function Live(): int { n - base }
  }

  /** A turn of the lock; aged is what the clock says of the segment's first event. */
  datatype Turn = Append(writer: nat) | RotateIfDue(writer: nat, aged: bool)

  /** segmentDue, for segment_events = bound. */
  predicate Due(bound: nat, live: int, aged: bool) {
    live > 0 && (live >= bound || (aged && live >= 2))
  }

  predicate Enabled(s: State, t: Turn) {
    match t
    case Append(w) => w !in s.pending
    case RotateIfDue(w, _) => w in s.pending
  }

  predicate Rotates(bound: nat, s: State, t: Turn) {
    t.RotateIfDue? && Enabled(s, t) && Due(bound, s.Live(), t.aged)
  }

  /** A rotation leaves the closing as the one event of the next segment. */
  function Step(bound: nat, s: State, t: Turn): State {
    if !Enabled(s, t) then s
    else
      match t
      case Append(w) => State(s.base, s.n + 1, s.pending + {w})
      case RotateIfDue(w, aged) =>
        if Due(bound, s.Live(), aged) then State(s.n, s.n + 1, s.pending - {w})
        else s.(pending := s.pending - {w})
  }

  function Run(bound: nat, s: State, run: seq<Turn>): State {
    if run == [] then s else Step(bound, Run(bound, s, run[..|run| - 1]), run[|run| - 1])
  }

  /** Every event past the bound is a writer that has yet to take its second turn. */
  predicate Bounded(bound: nat, s: State) {
    s.Live() >= bound ==> |s.pending| >= s.Live() - bound + 1
  }

  lemma {:induction false} LiveBounded(bound: nat, s: State, run: seq<Turn>)
    requires bound >= 2 && s.Live() < bound
    ensures Bounded(bound, Run(bound, s, run))
  {
    if run != [] {
      LiveBounded(bound, s, run[..|run| - 1]);
    }
  }

  /** No bound below it holds: k writers can put k events past the last below the bound. */
  lemma {:induction false} BoundIsReached(bound: nat, s: State, k: nat)
    requires bound >= 2 && s.Live() == bound - 1 && s.pending == {}
    ensures var s' := Run(bound, s, AppendsOf(k));
            s'.Live() == bound - 1 + k && |s'.pending| == k && forall w | w in s'.pending :: w < k
  {
    if k > 0 {
      BoundIsReached(bound, s, k - 1);
      assert AppendsOf(k)[..k - 1] == AppendsOf(k - 1);
    }
  }

  function AppendsOf(k: nat): (run: seq<Turn>)
    ensures |run| == k
  {
    if k == 0 then [] else AppendsOf(k - 1) + [Append(k - 1)]
  }

  /** A closing record never makes its own segment due. */
  lemma ClosingRotatesNothing(bound: nat, s: State, t: Turn, aged: bool)
    requires bound >= 2 && Rotates(bound, s, t)
    ensures Step(bound, s, t).Live() == 1 && !Due(bound, Step(bound, s, t).Live(), aged)
  {
  }

  // ----- What rotation costs -----

  function AppendsIn(bound: nat, s: State, run: seq<Turn>): nat {
    if run == [] then 0
    else
      var init, t := run[..|run| - 1], run[|run| - 1];
      AppendsIn(bound, s, init) + if t.Append? && Enabled(Run(bound, s, init), t) then 1 else 0
  }

  function RotationsIn(bound: nat, s: State, run: seq<Turn>): nat {
    if run == [] then 0
    else
      var init, t := run[..|run| - 1], run[|run| - 1];
      RotationsIn(bound, s, init) + if Rotates(bound, Run(bound, s, init), t) then 1 else 0
  }

  predicate ByCount(run: seq<Turn>) { forall t | t in run :: t.RotateIfDue? ==> !t.aged }

  /** Under any interleaving the record grows by one event an append and one a rotation, and a
      rotation by count is paid for by bound - 1 appends. */
  lemma {:induction false} RotationsPaidFor(bound: nat, s: State, run: seq<Turn>)
    requires bound >= 2
    ensures Run(bound, s, run).n == s.n + AppendsIn(bound, s, run) + RotationsIn(bound, s, run)
    ensures ByCount(run) ==>
              RotationsIn(bound, s, run) * (bound - 1)
              <= AppendsIn(bound, s, run) + s.Live() - Run(bound, s, run).Live()
  {
    if run != [] {
      var init, t := run[..|run| - 1], run[|run| - 1];
      RotationsPaidFor(bound, s, init);
      assert ByCount(run) ==> ByCount(init) && t in run;
      var k := RotationsIn(bound, s, init);
      assert (k + 1) * (bound - 1) == k * (bound - 1) + (bound - 1);
    }
  }

  // ----- One writer at a time -----

  /** An append and its own turn to rotate, with nothing between and no age trigger. */
  function Alone(bound: nat, s: State, appends: nat): State {
    if appends == 0 then s
    else Step(bound, Step(bound, Alone(bound, s, appends - 1), Append(0)), RotateIfDue(0, false))
  }

  /** From an empty log, by count alone, m appends leave one closing for every bound - 1 events after
      the first, and a live segment that holds what is left and its opening event. */
  lemma {:induction false} AloneExactly(bound: nat, m: nat)
    requires bound >= 2 && m >= 1
    ensures var s := Alone(bound, State(0, 0, {}), m);
            && s.n == m + (m - 1) / (bound - 1)
            && s.Live() == 1 + (m - 1) % (bound - 1)
            && s.pending == {}
  {
    var d := bound - 1;
    if m > 1 {
      AloneExactly(bound, m - 1);
      DivNext(m - 2, d);
    } else {
      assert Alone(bound, State(0, 0, {}), 0) == State(0, 0, {});
    }
  }

  lemma DivNext(a: nat, d: nat)
    requires d > 0
    ensures (a + 1) / d == a / d + if a % d == d - 1 then 1 else 0
    ensures (a + 1) % d == if a % d == d - 1 then 0 else a % d + 1
  {
    var q, m := a / d, a % d;
    DividesAs(a, d);
    if m == d - 1 {
      assert (q + 1) * d == q * d + d;
      DivOf(q + 1, 0, d);
    } else {
      DivOf(q, m + 1, d);
    }
  }

  lemma DivOf(q: nat, m: nat, d: nat)
    requires m < d
    ensures (q * d + m) / d == q && (q * d + m) % d == m
  {
    var a := q * d + m;
    DividesAs(a, d);
    OneQuotient(q, m, a / d, a % d, d);
  }

  lemma DividesAs(a: nat, d: nat)
    requires d > 0
    ensures a == (a / d) * d + a % d && 0 <= a / d && 0 <= a % d < d
  {
  }

  lemma OneQuotient(q: nat, m: nat, q': nat, m': nat, d: nat)
    requires m < d && m' < d && q * d + m == q' * d + m'
    ensures q == q' && m == m'
  {
    assert (q + 1) * d == q * d + d && (q' + 1) * d == q' * d + d;
  }

}
