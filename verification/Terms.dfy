/** The symbolic term algebra of the protocol models, and the network attacker.

    Signatures, hashes and HPKE are ideal: a term is what was computed, so two terms are equal
    only when they were computed in the same way from equal parts. Tuples of different lengths
    are different terms, as in the models. Terms are untyped: any term can stand for a key. */
module Terms {

  /** The constants every party knows. */
  datatype Word =
    | MeasOk | MeasBad | MeasPrimary | MeasStandby
    | SuiteStrong | SuiteWeak
    | KeyId1 | Kind | LabelBind | LabelReceipt | LabelRecord
    | Serial0 | Serial1 | NoStop | StopAll
    | PolicyTag | SealTag | ReportTag | Generation0 | Generation1 | PolicySerial | BundleBytes

  /** Names: long-term keys, fresh values indexed by the session that made them, and whatever
      the attacker invents. */
  datatype Atom =
    | ChipKey | AuthorityKey | OperatorKey | SentinelKey | EscrowKey | SharedRecipientKey
    | GenomeKey
    | RequestId(i: nat) | DecisionId(i: nat) | Nonce(i: nat) | TokenId(i: nat)
    | RecipientKey(j: nat)
    | Invented(n: nat)
    | Known(w: Word)

  datatype Term =
    | Name(a: Atom)
    | Pk(k: Term)
    | Pk2b(p: Term)
    | Sign(m: Term, k: Term)
    | H(m: Term)
    | Hpke(m: Term, p: Term, aad: Term)
    | HpkeWeak(m: Term, p: Term, aad: Term)
    | Tuple(items: seq<Term>)

  function W(w: Word): Term { Name(Known(w)) }

  /** Names the attacker starts with or makes up. */
  predicate Free(a: Atom) { a.Invented? || a.Known? }

  /** One deduction of the attacker: a constructor applied, or a destructor applied. */
  datatype Deduction =
    | Invent(a: Atom)
    | MakePk(k: Term)
    | MakePk2b(p: Term)
    | MakeSign(m: Term, k: Term)
    | MakeHash(m: Term)
    | MakeHpke(m: Term, p: Term, aad: Term)
    | MakeWeak(m: Term, p: Term, aad: Term)
    | MakeTuple(items: seq<Term>)
    | ReadSigned(m: Term, k: Term)                 // checksig under pk(k)
    | ReadKey(p: Term)                             // pk2b is a data constructor
    | ReadItem(items: seq<Term>, i: nat)
    | OpenHpke(m: Term, k: Term, aad: Term)
    | OpenWeak(m: Term, k: Term, aad: Term)
    | BreakWeak(m: Term, p: Term, aad: Term)

  predicate CanDeduce(known: set<Term>, d: Deduction) {
    match d
    case Invent(a) => Free(a)
    case MakePk(k) => k in known
    case MakePk2b(p) => p in known
    case MakeSign(m, k) => m in known && k in known
    case MakeHash(m) => m in known
    case MakeHpke(m, p, aad) => m in known && p in known && aad in known
    case MakeWeak(m, p, aad) => m in known && p in known && aad in known
    case MakeTuple(items) => forall x | x in items :: x in known
    case ReadSigned(m, k) => Sign(m, k) in known && Pk(k) in known
    case ReadKey(p) => Pk2b(p) in known
    case ReadItem(items, i) => i < |items| && Tuple(items) in known
    case OpenHpke(m, k, aad) => Hpke(m, Pk(k), aad) in known && k in known && aad in known
    case OpenWeak(m, k, aad) => HpkeWeak(m, Pk(k), aad) in known && k in known && aad in known
    case BreakWeak(m, p, aad) => HpkeWeak(m, p, aad) in known
  }

  function Deduced(d: Deduction): Term
    requires d.ReadItem? ==> d.i < |d.items|
  {
    match d
    case Invent(a) => Name(a)
    case MakePk(k) => Pk(k)
    case MakePk2b(p) => Pk2b(p)
    case MakeSign(m, k) => Sign(m, k)
    case MakeHash(m) => H(m)
    case MakeHpke(m, p, aad) => Hpke(m, p, aad)
    case MakeWeak(m, p, aad) => HpkeWeak(m, p, aad)
    case MakeTuple(items) => Tuple(items)
    case ReadSigned(m, k) => m
    case ReadKey(p) => p
    case ReadItem(items, i) => items[i]
    case OpenHpke(m, k, aad) => m
    case OpenWeak(m, k, aad) => m
    case BreakWeak(m, p, aad) => m
  }

  /** What the honest parties keep: the names they never give out, the content they encrypt, and
      the signatures they have made. */
  datatype Guard = Guard(secrets: iset<Atom>, payload: Term, signed: set<Term>)

  /** A public key whose private half is one of the secrets. */
  ghost predicate Guarded(g: Guard, p: Term) { p.Pk? && p.k.Name? && p.k.a in g.secrets }

  /** An over-approximation of what the attacker can ever hold: a signature needs its key or an
      honest signer, an encryption under a guarded key hides its content, a secret is nowhere. */
  ghost predicate Public(g: Guard, t: Term) {
    match t
    case Name(a) => a !in g.secrets
    case Pk(_) => true
    case Pk2b(p) => Public(g, p)
    case Sign(m, k) => Public(g, m) && (t in g.signed || Public(g, k))
    case H(_) => true
    case Hpke(m, p, _) => Public(g, m) || (m == g.payload && Guarded(g, p))
    case HpkeWeak(m, _, _) => Public(g, m)
    case Tuple(items) => forall x | x in items :: Public(g, x)
  }

  ghost predicate AllPublic(g: Guard, known: set<Term>) {
    forall t | t in known :: Public(g, t)
  }

  /** Public is closed under every deduction of the attacker. */
  lemma DeductionStaysPublic(g: Guard, known: set<Term>, d: Deduction)
    requires AllPublic(g, known)
    requires forall a | a in g.secrets :: !Free(a)
    requires CanDeduce(known, d)
    ensures Public(g, Deduced(d))
  {
    match d
    case ReadSigned(m, k) => assert Public(g, Sign(m, k));
    case ReadKey(p) => assert Public(g, Pk2b(p));
    case ReadItem(items, i) => assert Public(g, Tuple(items)) && items[i] in items;
    case OpenHpke(m, k, aad) => assert Public(g, Hpke(m, Pk(k), aad)) && Public(g, k);
    case OpenWeak(m, k, aad) => assert Public(g, HpkeWeak(m, Pk(k), aad));
    case BreakWeak(m, p, aad) => assert Public(g, HpkeWeak(m, p, aad));
    case _ =>
  }

  /** More honest signatures never make a public term secret. */
  lemma {:induction false} PublicGrows(g: Guard, g': Guard, t: Term)
    requires g.secrets == g'.secrets && g.payload == g'.payload && g.signed <= g'.signed
    requires Public(g, t)
    ensures Public(g', t)
    decreases t
  {
    match t
    case Pk2b(p) => PublicGrows(g, g', p);
    case Sign(m, k) =>
      PublicGrows(g, g', m);
      if Public(g, k) { PublicGrows(g, g', k); }
    case Hpke(m, _, _) => if Public(g, m) { PublicGrows(g, g', m); }
    case HpkeWeak(m, _, _) => PublicGrows(g, g', m);
    case Tuple(items) =>
      forall x | x in items ensures Public(g', x) { PublicGrows(g, g', x); }
    case _ =>
  }

  lemma TuplePublic(g: Guard, items: seq<Term>)
    requires forall x | x in items :: Public(g, x)
    ensures Public(g, Tuple(items))
  {
  }

  lemma ItemPublic(g: Guard, items: seq<Term>, i: nat)
    requires i < |items| && Public(g, Tuple(items))
    ensures Public(g, items[i])
  {
    assert items[i] in items;
  }

  lemma SignedTuplePublic(g: Guard, items: seq<Term>, k: Term)
    requires Sign(Tuple(items), k) in g.signed
    requires forall x | x in items :: Public(g, x)
    ensures Public(g, Sign(Tuple(items), k))
  {
    TuplePublic(g, items);
  }

  lemma AllPublicGrows(g: Guard, g': Guard, known: set<Term>)
    requires g.secrets == g'.secrets && g.payload == g'.payload && g.signed <= g'.signed
    requires AllPublic(g, known)
    ensures AllPublic(g', known)
  {
    forall t | t in known ensures Public(g', t) { PublicGrows(g, g', t); }
  }
}
