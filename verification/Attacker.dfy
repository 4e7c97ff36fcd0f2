/** Chains of deductions: what the attacker can build from what it knows, by constructors alone. */
module Attacker {
  import opened Terms

  /** What is known after the deductions of ds that can be made, in order. */
  function Derive(known: set<Term>, ds: seq<Deduction>): set<Term> {
    if ds == [] then known
    else
      var k := Derive(known, ds[..|ds| - 1]);
      var d := ds[|ds| - 1];
      if CanDeduce(k, d) then k + {Deduced(d)} else k
  }

  lemma DeriveOne(known: set<Term>, ds: seq<Deduction>, d: Deduction)
    requires CanDeduce(Derive(known, ds), d)
    ensures Derive(known, ds + [d]) == Derive(known, ds) + {Deduced(d)}
  {
    assert (ds + [d])[..|ds|] == ds;
  }

  lemma {:induction false} DeriveThen(known: set<Term>, ds: seq<Deduction>, es: seq<Deduction>)
    ensures Derive(known, ds + es) == Derive(Derive(known, ds), es)
    ensures Derive(known, ds) <= Derive(known, ds + es)
    decreases |es|
  {
    if es == [] {
      assert ds + es == ds;
    } else {
      var init, last := es[..|es| - 1], es[|es| - 1];
      DeriveThen(known, ds, init);
      assert (ds + es)[..|ds + es| - 1] == ds + init && (ds + es)[|ds + es| - 1] == last;
    }
  }

  predicate Buildable(known: set<Term>, t: Term) {
    || t in known
    || match t
       case Name(a) => Free(a)
       case Pk(k) => Buildable(known, k)
       case Pk2b(p) => Buildable(known, p)
       case Sign(m, k) => Buildable(known, m) && Buildable(known, k)
       case H(m) => Buildable(known, m)
       case Hpke(m, p, aad) => Buildable(known, m) && Buildable(known, p) && Buildable(known, aad)
       case HpkeWeak(m, p, aad) => Buildable(known, m) && Buildable(known, p) && Buildable(known, aad)
       case Tuple(items) => forall x | x in items :: Buildable(known, x)
  }

  lemma {:induction false} BuildableGrows(known: set<Term>, known': set<Term>, t: Term)
    requires known <= known' && Buildable(known, t)
    ensures Buildable(known', t)
    decreases t
  {
    if t !in known {
      match t
      case Name(_) =>
      case Pk(k) => BuildableGrows(known, known', k);
      case Pk2b(p) => BuildableGrows(known, known', p);
      case Sign(m, k) => BuildableGrows(known, known', m); BuildableGrows(known, known', k);
      case H(m) => BuildableGrows(known, known', m);
      case Hpke(m, p, aad) =>
        BuildableGrows(known, known', m); BuildableGrows(known, known', p); BuildableGrows(known, known', aad);
      case HpkeWeak(m, p, aad) =>
        BuildableGrows(known, known', m); BuildableGrows(known, known', p); BuildableGrows(known, known', aad);
      case Tuple(items) =>
        forall x | x in items ensures Buildable(known', x) { BuildableGrows(known, known', x); }
    }
  }

  /** The arguments a constructor needs, in order. */
  function Parts(t: Term): seq<Term> {
    match t
    case Name(_) => []
    case Pk(k) => [k]
    case Pk2b(p) => [p]
    case Sign(m, k) => [m, k]
    case H(m) => [m]
    case Hpke(m, p, aad) => [m, p, aad]
    case HpkeWeak(m, p, aad) => [m, p, aad]
    case Tuple(items) => items
  }

  function Make(t: Term): Deduction {
    match t
    case Name(a) => Invent(a)
    case Pk(k) => MakePk(k)
    case Pk2b(p) => MakePk2b(p)
    case Sign(m, k) => MakeSign(m, k)
    case H(m) => MakeHash(m)
    case Hpke(m, p, aad) => MakeHpke(m, p, aad)
    case HpkeWeak(m, p, aad) => MakeWeak(m, p, aad)
    case Tuple(items) => MakeTuple(items)
  }

  lemma CanMake(known: set<Term>, t: Term)
    requires forall i | 0 <= i < |Parts(t)| :: Parts(t)[i] in known
    requires t.Name? ==> Free(t.a)
    ensures CanDeduce(known, Make(t)) && Deduced(Make(t)) == t
  {
    var parts := Parts(t);
    assert |parts| > 0 ==> parts[0] in known;
    assert |parts| > 1 ==> parts[1] in known;
    assert |parts| > 2 ==> parts[2] in known;
  }

  /** A buildable term is derived: its parts first, then its constructor. */
  lemma {:induction false} DeduceBuildable(known: set<Term>, t: Term) returns (ds: seq<Deduction>)
    requires Buildable(known, t)
    ensures t in Derive(known, ds) && known <= Derive(known, ds)
    decreases t
  {
    if t in known {
      ds := [];
    } else {
      var parts := Parts(t);
      ds := DeduceParts(known, t, |parts|);
      CanMake(Derive(known, ds), t);
      DeriveOne(known, ds, Make(t));
      ds := ds + [Make(t)];
    }
  }

  lemma {:induction false} DeduceParts(known: set<Term>, t: Term, n: nat) returns (ds: seq<Deduction>)
    requires t !in known && Buildable(known, t) && n <= |Parts(t)|
    ensures known <= Derive(known, ds)
    ensures forall i | 0 <= i < n :: Parts(t)[i] in Derive(known, ds)
    decreases t, 0, n
  {
    if n == 0 {
      ds := [];
    } else {
      ds := DeduceParts(known, t, n - 1);
      var x := Parts(t)[n - 1];
      BuildableGrows(known, Derive(known, ds), x);
      var es := DeduceBuildable(Derive(known, ds), x);
      DeriveThen(known, ds, es);
      ds := ds + es;
    }
  }
}
