/** The invariant every run of the failover keeps, in every configuration, and the queries it
    gives when the protections they rest on are in place. */
module FailoverSafety {
  import opened Terms
  import opened Failover

  // ----- The conditions the guarantees rest on -----

  /** The attacker can make a record the executor takes for the sentinel's. */
  predicate CanForge(c: Config) {
    c.seedLeaked && (!c.pinsChip || c.primaryCompromised || c.chipKeyLeaked)
  }

  predicate NamesStandby(c: Config) { !(c.standbyFromReport && CanForge(c)) }

  predicate KeepsKey(c: Config) { !c.chipKeyLeaked && NamesStandby(c) }

  // ----- The invariant -----

  ghost function Secrets(c: Config): iset<Atom> {
    iset a: Atom |
      || a == OperatorKey || a == AuthorityKey || a == EscrowKey
      || (a == SentinelKey && !c.seedLeaked)
      || (a == ChipKey && !c.chipKeyLeaked)
      || ((a == GenomeKey || a.RecipientKey?) && KeepsKey(c))
  }

  ghost function GuardOf(c: Config, s: State): Guard { Guard(Secrets(c), KG, s.signed) }

  ghost predicate AuthorityWrote(s: State, m: Term, i: nat) {
    && i < |s.executors|
    && (m == RequestBody(i) || (s.executors[i].Sent? && m == TokenBody(i, s.executors[i])))
  }

  ghost predicate StandbyQuoted(s: State, m: Term, j: nat) {
    j < |s.standbys| && m == StandbyQuoteBody(j, s.standbys[j].nonce)
  }

  predicate QuoteAt(m: Term, measurement: Term) { m.Tuple? && |m.items| == 2 && m.items[0] == measurement }

  ghost predicate SentinelWrote(s: State, record: Term) {
    (s.sealed && record == SEAL_BODY) || (s.reported && record == REPORT_BODY)
  }

  ghost predicate ChipSigned(c: Config, s: State, m: Term) {
    || QuoteAt(m, W(MeasBad))
    || (c.primaryCompromised && QuoteAt(m, W(MeasPrimary)))
    || (s.sealed && m == RecordQuote(W(MeasPrimary), SEAL_BODY).m)
    || (s.reported && m == RecordQuote(W(MeasPrimary), REPORT_BODY).m)
    || exists j: nat :: StandbyQuoted(s, m, j)
  }

  ghost predicate SignedFits(c: Config, s: State, t: Term) {
    && t.Sign?
    && ((t.k == OPERATOR && (t == StopList(W(Serial0), W(NoStop))
                             || (s.late && t == StopList(W(Serial1), W(StopAll)))
                             || (s.issued && t.m == POLICY_BODY)))
        || (t.k == SENTINEL && SentinelWrote(s, t.m))
        || (t.k == AUTHORITY && exists i: nat :: AuthorityWrote(s, t.m, i))
        || (t.k == CHIP && ChipSigned(c, s, t.m)))
  }

  ghost predicate FlagsFit(s: State) {
    && (s.issued ==> EvPolicyIssued(W(PolicySerial)) in s.events
                     && EvPolicyNames(W(PolicySerial), W(MeasStandby)) in s.events)
    && (s.sealed ==> EvSealed(W(Generation1)) in s.events)
    && (s.reported ==> EvReported(W(Generation1)) in s.events)
  }

  ghost predicate DecidedIn(events: seq<Event>, serial: Term, g: Term) { EvDecided(serial, g) in events }

  ghost predicate ExecutorFits(c: Config, s: State, i: nat)
    requires i < |s.executors|
  {
    var o := s.executors[i];
    o.Stuck? || (
      && s.issued && o.serial == W(PolicySerial)
      && (exists g :: DecidedIn(s.events, o.serial, g))
      && (Public(GuardOf(c, s), o.secret) || o.secret == KG)
      && (NamesStandby(c) ==> o.want == W(MeasStandby)))
  }

  ghost predicate EventFits(c: Config, s: State, x: nat)
    requires x < |s.events|
  {
    match s.events[x]
    case EvDecided(serial, g) =>
      EvPolicyIssued(serial) in s.events[..x] && (!CanForge(c) ==> EvReported(g) in s.events[..x])
    case EvChosen(g) => !CanForge(c) ==> EvSealed(g) in s.events[..x]
    case EvReleased(serial, m) => NamesStandby(c) ==> EvPolicyNames(serial, m) in s.events[..x]
    case EvAuthorizedIn(late) => !late
    case EvOpened(serial, _) => exists g :: DecidedIn(s.events[..x], serial, g)
    case _ => true
  }

  ghost predicate Inv(c: Config, s: State) {
    && AllPublic(GuardOf(c, s), s.known)
    && (forall t | t in s.signed :: SignedFits(c, s, t))
    && FlagsFit(s)
    && (forall i: nat | i < |s.executors| :: ExecutorFits(c, s, i))
    && (forall x: nat | x < |s.events| :: EventFits(c, s, x))
  }

  // ----- Growth -----

  predicate ExecutorGrows(o: Executor, o': Executor) {
    || o == o'
    || (o.Decided? && o'.Sent? && (o'.serial, o'.secret, o'.want) == (o.serial, o.secret, o.want))
  }

  ghost predicate Grows(s: State, s': State) {
    && s.signed <= s'.signed
    && (s.late ==> s'.late) && (s.issued ==> s'.issued) && (s.sealed ==> s'.sealed) && (s.reported ==> s'.reported)
    && |s.executors| <= |s'.executors|
    && (forall i | 0 <= i < |s.executors| :: ExecutorGrows(s.executors[i], s'.executors[i]))
    && |s.standbys| <= |s'.standbys|
    && (forall j | 0 <= j < |s.standbys| :: s'.standbys[j].nonce == s.standbys[j].nonce)
    && s.events <= s'.events
  }

  lemma SignedStaysFit(c: Config, s: State, s': State, t: Term)
    requires SignedFits(c, s, t) && Grows(s, s')
    ensures SignedFits(c, s', t)
  {
    if t.k == AUTHORITY && exists i: nat :: AuthorityWrote(s, t.m, i) {
      var i: nat :| AuthorityWrote(s, t.m, i);
      assert AuthorityWrote(s', t.m, i);
    } else if t.k == CHIP && exists j: nat :: StandbyQuoted(s, t.m, j) {
      var j: nat :| StandbyQuoted(s, t.m, j);
      assert StandbyQuoted(s', t.m, j);
    }
  }

  lemma ExecutorStaysFit(c: Config, s: State, s': State, i: nat)
    requires i < |s.executors| && ExecutorFits(c, s, i) && Grows(s, s')
    ensures ExecutorFits(c, s', i)
  {
    var o := s.executors[i];
    if !o.Stuck? {
      var g :| DecidedIn(s.events, o.serial, g);
      assert DecidedIn(s'.events, o.serial, g);
      if Public(GuardOf(c, s), o.secret) { PublicGrows(GuardOf(c, s), GuardOf(c, s'), o.secret); }
    }
  }

  /** After a step that only grows the state, the invariant needs checking on what is new. */
  lemma InvGrows(c: Config, s: State, s': State)
    requires Inv(c, s) && Grows(s, s')
    requires forall t | t in s'.known && t !in s.known :: Public(GuardOf(c, s'), t)
    requires forall t | t in s'.signed && t !in s.signed :: SignedFits(c, s', t)
    requires FlagsFit(s')
    requires forall i: nat | |s.executors| <= i < |s'.executors| :: ExecutorFits(c, s', i)
    requires forall x: nat | |s.events| <= x < |s'.events| :: EventFits(c, s', x)
    ensures Inv(c, s')
  {
    AllPublicGrows(GuardOf(c, s), GuardOf(c, s'), s.known);
    forall t | t in s'.signed ensures SignedFits(c, s', t) {
      if t in s.signed { SignedStaysFit(c, s, s', t); }
    }
    forall i: nat | i < |s'.executors| ensures ExecutorFits(c, s', i) {
      if i < |s.executors| { ExecutorStaysFit(c, s, s', i); }
    }
    forall x: nat | x < |s'.events| ensures EventFits(c, s', x) {
      if x < |s.events| {
        assert EventFits(c, s, x);
        assert s'.events[..x] == s.events[..x];
      }
    }
  }

  /** A step that only sends a message, under signatures of its own. */
  lemma OutputKeeps(c: Config, s: State, s': State, signatures: set<Term>, message: Term)
    requires Inv(c, s) && Grows(s, s') && s'.executors == s.executors && s'.events == s.events
    requires (s'.issued, s'.sealed, s'.reported) == (s.issued, s.sealed, s.reported)
    requires s'.known == s.known + {message} && s'.signed == s.signed + signatures
    requires Public(GuardOf(c, s'), message) && forall t | t in signatures :: SignedFits(c, s', t)
    ensures Inv(c, s')
  {
    InvGrows(c, s, s');
  }

  // ----- Reading what was signed -----

  lemma SignatureIsHonest(c: Config, s: State, m: Term, a: Atom)
    requires Inv(c, s) && a in Secrets(c) && Public(GuardOf(c, s), Sign(m, Name(a)))
    ensures Sign(m, Name(a)) in s.signed && SignedFits(c, s, Sign(m, Name(a)))
  {
    assert !Public(GuardOf(c, s), Name(a));
  }

  lemma PolicyRead(c: Config, s: State, k: Case)
    requires Inv(c, s) && Public(GuardOf(c, s), k.Policy())
    ensures s.issued && k.serial == W(PolicySerial) && k.key == SENTINEL
    ensures k.mp == W(MeasPrimary) && k.msb == W(MeasStandby)
  {
    var m := k.Policy().m;
    SignatureIsHonest(c, s, m, OperatorKey);
    assert |m.items| == 5;
    assert m.items[1] == k.serial && m.items[2] == Pk2b(Pk(k.key)) && m.items[3] == k.mp && m.items[4] == k.msb;
    assert m == POLICY_BODY;
  }

  /** A record the executor takes for the sentinel's is the sentinel's, unless it can be forged. */
  lemma RecordRead(c: Config, s: State, record: Term, quote: Term)
    requires Inv(c, s) && !CanForge(c)
    requires Public(GuardOf(c, s), Sign(record, SENTINEL)) && Public(GuardOf(c, s), quote)
    requires c.pinsChip ==> quote == RecordQuote(W(MeasPrimary), record)
    ensures SentinelWrote(s, record)
  {
    if !c.seedLeaked {
      SignatureIsHonest(c, s, record, SentinelKey);
    } else {
      SignatureIsHonest(c, s, quote.m, ChipKey);
      var m := quote.m;
      assert m.items[0] == W(MeasPrimary);
      var content := m.items[1].m;
      assert content.items[1] == record;
      if s.sealed && m == RecordQuote(W(MeasPrimary), SEAL_BODY).m {
        assert RecordQuote(W(MeasPrimary), SEAL_BODY).m.items[1].m.items[1] == SEAL_BODY;
      } else {
        assert RecordQuote(W(MeasPrimary), REPORT_BODY).m.items[1].m.items[1] == REPORT_BODY;
      }
    }
  }

  lemma ReportRead(c: Config, s: State, k: Case)
    requires Inv(c, s) && Enabled(c, s, Decide(k)) && !CanForge(c)
    ensures s.reported && k.glast == W(Generation1) && k.dsb == W(MeasStandby)
  {
    var g := GuardOf(c, s);
    PolicyRead(c, s, k);
    var items := k.ReportMessage().items;
    assert Public(g, k.ReportMessage());
    ItemPublic(g, items, 1);
    ItemPublic(g, items, 2);
    RecordRead(c, s, k.Report(), k.reportQuote);
    assert |k.Report().items| == 3 && |SEAL_BODY.items| == 5;
    assert k.Report().items[1] == k.glast && k.Report().items[2] == k.dsb;
    assert REPORT_BODY.items[1] == W(Generation1) && REPORT_BODY.items[2] == W(MeasStandby);
  }

  lemma SealRead(c: Config, s: State, k: Case)
    requires Inv(c, s) && Enabled(c, s, Decide(k))
    ensures !CanForge(c) ==> s.sealed && k.glast == W(Generation1)
    ensures k.envelope.Hpke? && k.envelope.p == Pk(ESCROW) ==>
              Public(GuardOf(c, s), k.envelope.m) || k.envelope.m == KG
  {
    var g := GuardOf(c, s);
    PolicyRead(c, s, k);
    var items := k.RecordMessage().items;
    assert Public(g, k.RecordMessage());
    ItemPublic(g, items, 0);
    ItemPublic(g, items, 1);
    ItemPublic(g, items, 2);
    ItemPublic(g, k.Record().items, 3);
    if !CanForge(c) {
      RecordRead(c, s, k.Record(), k.sealQuote);
      assert |k.Record().items| == 5 && |REPORT_BODY.items| == 3;
      assert k.Record().items[1] == k.glast && SEAL_BODY.items[1] == W(Generation1);
    }
  }

  lemma StopListRead(c: Config, s: State, serial: Term, flag: Term)
    requires Inv(c, s) && Public(GuardOf(c, s), StopList(serial, flag))
    ensures (serial == W(Serial0) && flag == W(NoStop)) || (serial == W(Serial1) && flag == W(StopAll))
  {
    var m := Tuple([serial, flag]);
    SignatureIsHonest(c, s, m, OperatorKey);
    assert |m.items| == 2 && |POLICY_BODY.items| == 5;
    assert m.items[0] == serial && m.items[1] == flag;
    var l0, l1 := Tuple([W(Serial0), W(NoStop)]), Tuple([W(Serial1), W(StopAll)]);
    assert l0.items[0] == W(Serial0) && l0.items[1] == W(NoStop);
    assert l1.items[0] == W(Serial1) && l1.items[1] == W(StopAll);
  }

  lemma StandbyQuoteRead(c: Config, s: State, suite: Term, pkb: Term, nonce: Term) returns (j: nat)
    requires Inv(c, s) && !c.chipKeyLeaked
    requires Public(GuardOf(c, s), Sign(Tuple([W(MeasStandby), Challenge(suite, pkb, nonce)]), CHIP))
    ensures j < |s.standbys| && pkb == Pk2b(Pk(StandbyKey(j)))
  {
    var m := Tuple([W(MeasStandby), Challenge(suite, pkb, nonce)]);
    SignatureIsHonest(c, s, m, ChipKey);
    assert m.items[0] == W(MeasStandby);
    assert RecordQuote(W(MeasPrimary), SEAL_BODY).m.items[0] == W(MeasPrimary);
    assert RecordQuote(W(MeasPrimary), REPORT_BODY).m.items[0] == W(MeasPrimary);
    j :| StandbyQuoted(s, m, j);
    var q := StandbyQuoteBody(j, s.standbys[j].nonce);
    assert m.items[1] == q.items[1];
    assert m.items[1].m.items[2] == q.items[1].m.items[2];
  }

  lemma TokenRead(c: Config, s: State, j: nat, tokenid: Term, m: Term, kid: Term, x: Term, serial: Term)
    returns (i: nat)
    requires Inv(c, s) && j < |s.standbys| && Public(GuardOf(c, s), TokenFor(s, j, tokenid, m, kid, x, serial))
    ensures i < |s.executors| && s.executors[i].Sent? && serial == s.executors[i].serial
  {
    var body := TokenFor(s, j, tokenid, m, kid, x, serial).m;
    SignatureIsHonest(c, s, body, AuthorityKey);
    i :| AuthorityWrote(s, body, i);
    assert |body.items| == 9;
    assert |RequestBody(i).items| == 4;
    assert body.items[8] == TokenBody(i, s.executors[i]).items[8];
  }

  // ----- Every step keeps the invariant -----

  lemma ThinkKeeps(c: Config, s: State, d: Deduction)
    requires Inv(c, s) && Enabled(c, s, Think(d))
    ensures Inv(c, Apply(c, s, Think(d)))
  {
    DeductionStaysPublic(GuardOf(c, s), s.known, d);
    InvGrows(c, s, Apply(c, s, Think(d)));
  }

  lemma IssuePolicyKeeps(c: Config, s: State)
    requires Inv(c, s) && Enabled(c, s, IssuePolicy)
    ensures Inv(c, Apply(c, s, IssuePolicy))
  {
    var s' := Apply(c, s, IssuePolicy);
    var n := |s.events|;
    assert s'.events[n] in s'.events && s'.events[n + 1] in s'.events;
    SignedTuplePublic(GuardOf(c, s'), POLICY_BODY.items, OPERATOR);
    InvGrows(c, s, s');
  }

  /** What the sentinel writes to the outbox shows the attacker nothing it may not see. */
  lemma WrittenPublic(g: Guard, record: seq<Term>)
    requires forall x | x in record :: Public(g, x)
    requires Sign(Tuple(record), SENTINEL) in g.signed && RecordQuote(W(MeasPrimary), Tuple(record)) in g.signed
    requires forall w: Word :: Known(w) !in g.secrets
    ensures Public(g, Tuple([Tuple(record), Sign(Tuple(record), SENTINEL), RecordQuote(W(MeasPrimary), Tuple(record))]))
  {
    var signature, quote := Sign(Tuple(record), SENTINEL), RecordQuote(W(MeasPrimary), Tuple(record));
    SignedTuplePublic(g, record, SENTINEL);
    SignedTuplePublic(g, quote.m.items, CHIP);
    TuplePublic(g, record);
    TuplePublic(g, [Tuple(record), signature, quote]);
  }

  lemma SealPublic(g: Guard)
    requires EscrowKey in g.secrets && g.payload == KG
    requires forall w: Word :: Known(w) !in g.secrets
    requires Sign(SEAL_BODY, SENTINEL) in g.signed && RecordQuote(W(MeasPrimary), SEAL_BODY) in g.signed
    ensures Public(g, Tuple([SEAL_BODY, Sign(SEAL_BODY, SENTINEL), RecordQuote(W(MeasPrimary), SEAL_BODY)]))
  {
    assert Public(g, Hpke(KG, Pk(ESCROW), W(Generation1)));
    WrittenPublic(g, SEAL_BODY.items);
  }

  lemma SealKeeps(c: Config, s: State)
    requires Inv(c, s) && Enabled(c, s, SealGeneration)
    ensures Inv(c, Apply(c, s, SealGeneration))
  {
    var s' := Apply(c, s, SealGeneration);
    assert s'.events[|s.events|] in s'.events;
    SealPublic(GuardOf(c, s'));
    InvGrows(c, s, s');
  }

  lemma ReportKeeps(c: Config, s: State)
    requires Inv(c, s) && Enabled(c, s, ReportCompromise)
    ensures Inv(c, Apply(c, s, ReportCompromise))
  {
    var s' := Apply(c, s, ReportCompromise);
    assert s'.events[|s.events|] in s'.events;
    WrittenPublic(GuardOf(c, s'), REPORT_BODY.items);
    InvGrows(c, s, s');
  }

  lemma DecideEventsFit(c: Config, s: State, k: Case, s': State)
    requires Inv(c, s) && Enabled(c, s, Decide(k)) && s' == Apply(c, s, Decide(k))
    ensures forall x: nat | |s.events| <= x < |s'.events| :: EventFits(c, s', x)
    ensures s.issued && k.serial == W(PolicySerial) && DecidedIn(s'.events, k.serial, k.glast)
  {
    var n := |s.events|;
    PolicyRead(c, s, k);
    SealRead(c, s, k);
    if !CanForge(c) { ReportRead(c, s, k); }
    assert s'.events == s.events + [EvDecided(k.serial, k.glast), EvChosen(k.glast)];
    assert s'.events[n] == EvDecided(k.serial, k.glast) && s'.events[n + 1] == EvChosen(k.glast);
    assert s'.events[..n] == s.events && s'.events[..n + 1] == s.events + [s'.events[n]];
    assert EventFits(c, s', n) && EventFits(c, s', n + 1);
  }

  lemma DecidedExecutorFits(c: Config, s: State, k: Case, s': State)
    requires Inv(c, s) && Enabled(c, s, Decide(k)) && s' == Apply(c, s, Decide(k))
    ensures ExecutorFits(c, s', |s.executors|)
  {
    var i := |s.executors|;
    DecideEventsFit(c, s, k, s');
    PolicyRead(c, s, k);
    SealRead(c, s, k);
    if !CanForge(c) { ReportRead(c, s, k); }
    if s'.executors[i].Decided? && Public(GuardOf(c, s), k.envelope.m) {
      PublicGrows(GuardOf(c, s), GuardOf(c, s'), k.envelope.m);
    }
  }

  lemma RequestFits(c: Config, s: State, i: nat)
    requires i < |s.executors| && Sign(RequestBody(i), AUTHORITY) in s.signed
    ensures SignedFits(c, s, Sign(RequestBody(i), AUTHORITY))
    ensures Public(GuardOf(c, s), Sign(RequestBody(i), AUTHORITY))
  {
    assert AuthorityWrote(s, RequestBody(i), i);
    SignedTuplePublic(GuardOf(c, s), RequestBody(i).items, AUTHORITY);
  }

  /** What a decision changes, apart from what it says. */
  lemma DecideShape(c: Config, s: State, k: Case, s': State)
    requires Enabled(c, s, Decide(k)) && s' == Apply(c, s, Decide(k))
    ensures Grows(s, s') && |s'.executors| == |s.executors| + 1
    ensures (s'.issued, s'.sealed, s'.reported) == (s.issued, s.sealed, s.reported)
    ensures var request := Sign(RequestBody(|s.executors|), AUTHORITY);
            || (s'.known == s.known && s'.signed == s.signed)
            || (s'.known == s.known + {request} && s'.signed == s.signed + {request})
  {
  }

  lemma DecideKeeps(c: Config, s: State, k: Case)
    requires Inv(c, s) && Enabled(c, s, Decide(k))
    ensures Inv(c, Apply(c, s, Decide(k)))
  {
    var s' := Apply(c, s, Decide(k));
    DecideEventsFit(c, s, k, s');
    DecidedExecutorFits(c, s, k, s');
    DecideShape(c, s, k, s');
    DecisionGrows(c, s, s');
  }

  lemma DecisionGrows(c: Config, s: State, s': State)
    requires Inv(c, s) && Grows(s, s') && |s'.executors| == |s.executors| + 1
    requires (s'.issued, s'.sealed, s'.reported) == (s.issued, s.sealed, s.reported)
    requires var request := Sign(RequestBody(|s.executors|), AUTHORITY);
             || (s'.known == s.known && s'.signed == s.signed)
             || (s'.known == s.known + {request} && s'.signed == s.signed + {request})
    requires ExecutorFits(c, s', |s.executors|)
    requires forall x: nat | |s.events| <= x < |s'.events| :: EventFits(c, s', x)
    ensures Inv(c, s')
  {
    if s'.signed != s.signed { RequestFits(c, s', |s.executors|); }
    InvGrows(c, s, s');
  }

  lemma TokenPublic(g: Guard, i: nat, o: Executor)
    requires o.Sent? && Sign(TokenBody(i, o), AUTHORITY) in g.signed
    requires Public(g, o.want) && Public(g, o.suite) && Public(g, o.serial)
    requires forall a: Atom | a.TokenId? || a.DecisionId? || a.RequestId? || a.Known? :: a !in g.secrets
    requires Public(g, o.secret) || (o.secret == g.payload && Guarded(g, o.pkh))
    ensures Public(g, Sign(TokenBody(i, o), AUTHORITY))
  {
    var aad := Aad(Name(TokenId(i)), o.want, W(KeyId1));
    assert Public(g, aad);
    assert Public(g, Hpke(o.secret, o.pkh, aad));
    SignedTuplePublic(g, TokenBody(i, o).items, AUTHORITY);
  }

  /** The answer a release acts on: what of it the attacker knew, and whose key it names. */
  lemma AnswerRead(c: Config, s: State, a: Action)
    requires Inv(c, s) && a.Release? && Enabled(c, s, a)
    ensures Public(GuardOf(c, s), a.suite) && Public(GuardOf(c, s), a.m)
    ensures KeepsKey(c) ==> Guarded(GuardOf(c, s), a.pkh)
  {
    var g := GuardOf(c, s);
    var quote := Sign(Tuple([a.m, a.rd]), CHIP);
    var items := [a.suite, Pk2b(a.pkh), quote];
    assert Public(g, Tuple(items));
    ItemPublic(g, items, 0);
    ItemPublic(g, items, 2);
    ItemPublic(g, [a.m, a.rd], 0);
    if KeepsKey(c) {
      assert ExecutorFits(c, s, a.i);
      var j := StandbyQuoteRead(c, s, a.suite, Pk2b(a.pkh), Name(Nonce(a.i)));
      assert RecipientKey(j) in Secrets(c);
    }
  }

  /** What the token of a release shows, and whether its secret may be shown. */
  lemma ReleasedSecret(c: Config, s: State, g': Guard, secret: Term)
    requires Public(GuardOf(c, s), secret) || secret == KG
    requires g'.secrets == Secrets(c) && g'.payload == KG && s.signed <= g'.signed
    ensures Public(g', secret) || (KeepsKey(c) && secret == KG)
  {
    if Public(GuardOf(c, s), secret) { PublicGrows(GuardOf(c, s), g', secret); }
    if !KeepsKey(c) {
      assert GenomeKey !in Secrets(c);
      assert Public(g', KG);
    }
  }

  lemma ReleaseShape(c: Config, s: State, a: Action)
    requires a.Release? && Enabled(c, s, a)
    ensures var s' := Apply(c, s, a);
            var (o, o') := (s.executors[a.i], s'.executors[a.i]);
            && s.signed <= s'.signed && |s'.executors| == |s.executors|
            && o' == Sent(o.late, o.serial, o.secret, o.want, a.suite, a.pkh) && a.m == o.want
            && Sign(TokenBody(a.i, o'), AUTHORITY) in s'.signed
  {
  }

  lemma ReleaseSignatureFits(c: Config, s: State, a: Action, s': State)
    requires Inv(c, s) && a.Release? && Enabled(c, s, a) && s' == Apply(c, s, a)
    ensures var token := Sign(TokenBody(a.i, s'.executors[a.i]), AUTHORITY);
            SignedFits(c, s', token) && Public(GuardOf(c, s'), token)
  {
    ReleaseShape(c, s, a);
    AnswerRead(c, s, a);
    assert ExecutorFits(c, s, a.i);
    TokenShown(c, s, s', a.i, s'.executors[a.i]);
    assert AuthorityWrote(s', TokenBody(a.i, s'.executors[a.i]), a.i);
  }

  lemma TokenShown(c: Config, s: State, s': State, i: nat, o: Executor)
    requires o.Sent? && Sign(TokenBody(i, o), AUTHORITY) in s'.signed && s.signed <= s'.signed
    requires Public(GuardOf(c, s), o.suite) && Public(GuardOf(c, s), o.want) && o.serial == W(PolicySerial)
    requires Public(GuardOf(c, s), o.secret) || o.secret == KG
    requires KeepsKey(c) ==> Guarded(GuardOf(c, s), o.pkh)
    ensures Public(GuardOf(c, s'), Sign(TokenBody(i, o), AUTHORITY))
  {
    var g, g' := GuardOf(c, s), GuardOf(c, s');
    PublicGrows(g, g', o.suite);
    PublicGrows(g, g', o.want);
    ReleasedSecret(c, s, g', o.secret);
    TokenPublic(g', i, o);
  }

  lemma ReleaseEventsFit(c: Config, s: State, a: Action, s': State)
    requires Inv(c, s) && a.Release? && Enabled(c, s, a) && s' == Apply(c, s, a)
    ensures forall x: nat | |s.events| <= x < |s'.events| :: EventFits(c, s', x)
  {
    var n := |s.events|;
    assert ExecutorFits(c, s, a.i);
    StopListRead(c, s, a.serial, a.flag);
    assert s'.events[n] == EvReleased(s.executors[a.i].serial, a.m) && s'.events[n + 1] == EvAuthorizedIn(s.late);
    assert s'.events[..n] == s.events;
    assert EventFits(c, s', n) && EventFits(c, s', n + 1);
  }

  lemma ReleaseKeeps(c: Config, s: State, a: Action)
    requires Inv(c, s) && a.Release? && Enabled(c, s, a)
    ensures Inv(c, Apply(c, s, a))
  {
    var s' := Apply(c, s, a);
    ReleaseEventsFit(c, s, a, s');
    ReleaseSignatureFits(c, s, a, s');
    InvGrows(c, s, s');
  }

  lemma StartStandbyKeeps(c: Config, s: State, a: Action)
    requires Inv(c, s) && a.StartStandby? && Enabled(c, s, a)
    ensures Inv(c, Apply(c, s, a))
  {
    var s' := Apply(c, s, a);
    var j := |s.standbys|;
    var quote := StandbyQuoteBody(j, a.nonce);
    assert StandbyQuoted(s', quote, j);
    var answer := [W(SuiteStrong), Pk2b(Pk(StandbyKey(j))), Sign(quote, CHIP)];
    SignedTuplePublic(GuardOf(c, s'), quote.items, CHIP);
    TuplePublic(GuardOf(c, s'), answer);
    OutputKeeps(c, s, s', {Sign(quote, CHIP)}, Tuple(answer));
  }

  lemma OpenKeeps(c: Config, s: State, a: Action)
    requires Inv(c, s) && a.Open? && Enabled(c, s, a)
    ensures Inv(c, Apply(c, s, a))
  {
    var s' := Apply(c, s, a);
    var n := |s.events|;
    var i := TokenRead(c, s, a.j, a.tokenid, a.m, a.kid, a.x, a.serial);
    assert ExecutorFits(c, s, i);
    assert s'.events[..n] == s.events && s'.events[n] == EvOpened(a.serial, a.x);
    assert EventFits(c, s', n);
    InvGrows(c, s, s');
  }

  function ChipQuote(a: Action): seq<Term>
    requires a.Impostor? || a.PrimaryChip?
  {
    [if a.Impostor? then W(MeasBad) else W(MeasPrimary), a.chal]
  }

  lemma ChipShape(c: Config, s: State, a: Action)
    requires (a.Impostor? || a.PrimaryChip?) && Enabled(c, s, a)
    ensures var (s', quote) := (Apply(c, s, a), Sign(Tuple(ChipQuote(a)), CHIP));
            s' == s.(known := s.known + {quote}, signed := s.signed + {quote}) && a.chal in s.known
    ensures ChipSigned(c, Apply(c, s, a), Tuple(ChipQuote(a)))
  {
  }

  lemma QuotePublic(c: Config, s: State, s': State, quote: seq<Term>, measurement: Word)
    requires |quote| == 2 && quote[0] == W(measurement) && Public(GuardOf(c, s), quote[1])
    requires s.signed <= s'.signed && Sign(Tuple(quote), CHIP) in s'.signed
    ensures Public(GuardOf(c, s'), Sign(Tuple(quote), CHIP))
  {
    PublicGrows(GuardOf(c, s), GuardOf(c, s'), quote[1]);
    SignedTuplePublic(GuardOf(c, s'), quote, CHIP);
  }

  lemma ChipKeeps(c: Config, s: State, a: Action)
    requires Inv(c, s) && (a.Impostor? || a.PrimaryChip?) && Enabled(c, s, a)
    ensures Inv(c, Apply(c, s, a))
  {
    var s', quote := Apply(c, s, a), ChipQuote(a);
    ChipShape(c, s, a);
    QuotePublic(c, s, s', quote, if a.Impostor? then MeasBad else MeasPrimary);
    OutputKeeps(c, s, s', {Sign(Tuple(quote), CHIP)}, Sign(Tuple(quote), CHIP));
  }

  lemma RaiseStopKeeps(c: Config, s: State)
    requires Inv(c, s) && Enabled(c, s, RaiseStop)
    ensures Inv(c, Apply(c, s, RaiseStop))
  {
    var s' := Apply(c, s, RaiseStop);
    SignedTuplePublic(GuardOf(c, s'), [W(Serial1), W(StopAll)], OPERATOR);
    InvGrows(c, s, s');
  }

  lemma StepKeeps(c: Config, s: State, a: Action)
    requires Inv(c, s)
    ensures Inv(c, Step(c, s, a))
  {
    if Enabled(c, s, a) {
      match a
      case Think(d) => ThinkKeeps(c, s, d);
      case IssuePolicy => IssuePolicyKeeps(c, s);
      case SealGeneration => SealKeeps(c, s);
      case ReportCompromise => ReportKeeps(c, s);
      case Decide(k) => DecideKeeps(c, s, k);
      case Release(_, _, _, _, _, _, _) => ReleaseKeeps(c, s, a);
      case StartStandby(_, _, _, _) => StartStandbyKeeps(c, s, a);
      case Open(_, _, _, _, _, _) => OpenKeeps(c, s, a);
      case Impostor(_) => ChipKeeps(c, s, a);
      case PrimaryChip(_) => ChipKeeps(c, s, a);
      case RaiseStop => RaiseStopKeeps(c, s);
    }
  }

  lemma {:induction false} RunKeeps(c: Config, run: seq<Action>)
    ensures Inv(c, Exec(c, run))
  {
    if run != [] {
      RunKeeps(c, run[..|run| - 1]);
      StepKeeps(c, Exec(c, run[..|run| - 1]), run[|run| - 1]);
    } else {
      SignedTuplePublic(GuardOf(c, Init(c)), [W(Serial0), W(NoStop)], OPERATOR);
    }
  }
}
