/** The invariant every run of the key release keeps, in every configuration, and what it gives
    for each query when the protections that query rests on are in place. */
module KeyReleaseSafety {
  import opened Terms
  import opened KeyRelease

  // ----- The conditions the guarantees rest on -----

  predicate KeepsKey(c: Config) { c.binding.KeyAndSuite? && c.freshKeys && !c.chipKeyLeaked }
  predicate KeepsAuthorization(c: Config) { !c.authorityKeyLeaked }
  predicate KeepsRecipient(c: Config) { !c.binding.NonceAlone? && !c.chipKeyLeaked }
  predicate KeepsSingleOpening(c: Config) { c.freshKeys && !c.authorityKeyLeaked }
  predicate KeepsStop(c: Config) { c.refusesRollback }
  predicate KeepsReceipt(c: Config) { c.receiptNamesDecision && !c.chipKeyLeaked }

  // ----- The invariant -----

  ghost function Secrets(c: Config): iset<Atom> {
    iset a: Atom |
      || a == OperatorKey
      || (a == ChipKey && !c.chipKeyLeaked)
      || (a == AuthorityKey && !c.authorityKeyLeaked)
      || ((a == GenomeKey || a.RecipientKey?) && KeepsKey(c))
  }

  ghost function GuardOf(c: Config, s: State): Guard { Guard(Secrets(c), DEK, s.signed) }

  /** What the source authority has signed: a request of a session, or the token it released. */
  ghost predicate AuthorityWrote(s: State, m: Term, i: nat) {
    && i < |s.sources|
    && (m == RequestBody(i)
        || (s.sources[i].HasReleased() && m == TokenBody(i, s.sources[i].suite, s.sources[i].pkh)))
  }

  /** What the listed chip has quoted for a session of the destination. */
  ghost predicate ChipQuoted(c: Config, s: State, m: Term, j: nat) {
    && j < |s.dests|
    && (m == QuoteBody(c, j, s.dests[j].nonce)
        || (s.dests[j].Restored? && m == ReceiptQuoteBody(s.dests[j].receipt)))
  }

  ghost predicate UnlistedQuote(m: Term) { m.Tuple? && |m.items| == 2 && m.items[0] == W(MeasBad) }

  ghost predicate SignedFits(c: Config, s: State, t: Term) {
    && t.Sign?
    && ((t.k == OPERATOR && (t == StopList(W(Serial0), W(NoStop))
                             || (s.late && t == StopList(W(Serial1), W(StopAll)))))
        || (t.k == AUTHORITY && exists i: nat :: AuthorityWrote(s, t.m, i))
        || (t.k == CHIP && (UnlistedQuote(t.m) || exists j: nat :: ChipQuoted(c, s, t.m, j))))
  }

  /** The sessions' own account of where their events stand. */
  ghost predicate SourceFits(s: State, i: nat)
    requires i < |s.sources|
  {
    var o := s.sources[i];
    match o
    case Asked(_) => true
    case Halted(_, at) => at < |s.events|
    case _ =>
      && o.at + 2 < |s.events|
      && s.events[o.at] == EvAuthorized(i, Name(DecisionId(i)), W(MeasOk), o.pkh)
      && s.events[o.at + 2] == EvReleased(i, Name(TokenId(i)), Name(DecisionId(i)), DEK)
      && CanWrap(o.suite)
      && (o.Done? ==> o.doneAt < |s.events|)
  }

  /** The receipt of a restored session names what its Restored event says. */
  ghost predicate ReceiptFits(c: Config, j: nat, d: Dest, e: Event)
    requires d.Restored?
  {
    && e.EvRestored?
    && e == EvRestored(j, d.decid, e.keyId, W(MeasOk))
    && exists reqid, tokenid :: d.receipt == Receipt(c, e.keyId, d.decid, reqid, tokenid)
  }

  ghost predicate DestFits(c: Config, s: State, j: nat)
    requires j < |s.dests|
  {
    var d := s.dests[j];
    && d.at < |s.events|
    && s.events[d.at] == EvGenerated(j, Pk(Recipient(c, j)), d.nonce)
    && (d.Restored? ==>
          && 1 <= d.restoredAt < |s.events|
          && ReceiptFits(c, j, d, s.events[d.restoredAt]))
  }

  /** A key generated by the destination for the source's nonce. */
  ghost predicate GeneratedFor(c: Config, s: State, i: nat, key: Term, x: nat, j: nat) {
    j < |s.dests| && s.dests[j].at < x && key == Pk(Recipient(c, j)) && s.dests[j].nonce == Name(Nonce(i))
  }

  /** A release that decision and secret come from, to the key of session j. */
  ghost predicate ReleasedFor(c: Config, s: State, decision: Term, secret: Term, x: nat, j: nat, i: nat) {
    && i < |s.sources| && s.sources[i].HasReleased() && s.sources[i].at + 2 < x
    && decision == Name(DecisionId(i)) && secret == DEK
    && s.sources[i].pkh == Pk(Recipient(c, j))
  }

  ghost predicate RestoredFor(s: State, i: nat, x: nat, j: nat) {
    && j < |s.dests| && s.dests[j].Restored? && s.dests[j].restoredAt < x
    && s.dests[j].restoredAt < |s.events|
    && s.events[s.dests[j].restoredAt] == EvRestored(j, Name(DecisionId(i)), W(KeyId1), W(MeasOk))
  }

  ghost predicate EventFits(c: Config, s: State, x: nat)
    requires x < |s.events|
  {
    match s.events[x]
    case EvAuthorized(i, d, m, p) =>
      && i < |s.sources| && !s.sources[i].Asked? && s.sources[i].at == x
      && d == Name(DecisionId(i)) && m == W(MeasOk)
      && (KeepsRecipient(c) ==> exists j: nat :: GeneratedFor(c, s, i, p, x, j))
    case EvAuthorizedIn(_, late) => KeepsStop(c) ==> !late
    case EvOpened(j, d, k) =>
      && j < |s.dests| && s.dests[j].Restored? && s.dests[j].restoredAt == x + 1
      && (KeepsAuthorization(c) ==> exists i: nat :: ReleasedFor(c, s, d, k, x, j, i))
    case EvConfirmed(i, d, kid, m) =>
      && i < |s.sources| && s.sources[i].Done? && s.sources[i].doneAt == x
      && d == Name(DecisionId(i)) && kid == W(KeyId1) && m == W(MeasOk)
      && (KeepsReceipt(c) ==> exists j: nat :: RestoredFor(s, i, x, j))
    case _ => true
  }

  ghost predicate Inv(c: Config, s: State) {
    && AllPublic(GuardOf(c, s), s.known)
    && (forall t | t in s.signed :: SignedFits(c, s, t))
    && (forall i: nat | i < |s.sources| :: SourceFits(s, i))
    && (forall j: nat | j < |s.dests| :: DestFits(c, s, j))
    && (forall x: nat | x < |s.events| :: EventFits(c, s, x))
  }

  // ----- Growth: what a session or an event says stays said -----

  predicate SourceGrows(o: Source, o': Source) {
    || o == o'
    || (o.Asked? && (o'.Halted? || o'.Sent?))
    || (o.Sent? && o'.Done? && (o'.suite, o'.pkh, o'.at) == (o.suite, o.pkh, o.at))
  }

  predicate DestGrows(d: Dest, d': Dest) {
    || d == d'
    || (d.Answered? && d'.Restored? && (d'.nonce, d'.at, d'.decid) == (d.nonce, d.at, d.decid))
  }

  ghost predicate Grows(s: State, s': State) {
    && s.signed <= s'.signed
    && (s.late ==> s'.late)
    && |s.sources| <= |s'.sources| && (forall i | 0 <= i < |s.sources| :: SourceGrows(s.sources[i], s'.sources[i]))
    && |s.dests| <= |s'.dests| && (forall j | 0 <= j < |s.dests| :: DestGrows(s.dests[j], s'.dests[j]))
    && s.events <= s'.events
  }

  lemma SignedStaysFit(c: Config, s: State, s': State, t: Term)
    requires SignedFits(c, s, t) && Grows(s, s')
    ensures SignedFits(c, s', t)
  {
    if t.k == AUTHORITY && exists i: nat :: AuthorityWrote(s, t.m, i) {
      var i: nat :| AuthorityWrote(s, t.m, i);
      assert AuthorityWrote(s', t.m, i);
    } else if t.k == CHIP && exists j: nat :: ChipQuoted(c, s, t.m, j) {
      var j: nat :| ChipQuoted(c, s, t.m, j);
      assert ChipQuoted(c, s', t.m, j);
    }
  }

  lemma EventStaysFit(c: Config, s: State, s': State, x: nat)
    requires x < |s.events| && EventFits(c, s, x) && Grows(s, s')
    ensures EventFits(c, s', x)
  {
    assert s'.events[x] == s.events[x];
    match s.events[x]
    case EvAuthorized(i, d, m, p) =>
      if KeepsRecipient(c) {
        var j: nat :| GeneratedFor(c, s, i, p, x, j);
        assert GeneratedFor(c, s', i, p, x, j);
      }
    case EvOpened(j, d, k) =>
      if KeepsAuthorization(c) {
        var i: nat :| ReleasedFor(c, s, d, k, x, j, i);
        assert ReleasedFor(c, s', d, k, x, j, i);
      }
    case EvConfirmed(i, d, kid, m) =>
      if KeepsReceipt(c) {
        var j: nat :| RestoredFor(s, i, x, j);
        assert RestoredFor(s', i, x, j);
      }
    case _ =>
  }

  /** After a step that only grows the state, the invariant needs checking on what is new: the
      message sent, the signature made, the sessions touched, the events raised. */
  lemma InvGrows(c: Config, s: State, s': State)
    requires Inv(c, s) && Grows(s, s')
    requires forall t | t in s'.known && t !in s.known :: Public(GuardOf(c, s'), t)
    requires forall t | t in s'.signed && t !in s.signed :: SignedFits(c, s', t)
    requires forall i: nat | i < |s'.sources| && !(i < |s.sources| && s.sources[i] == s'.sources[i])
               :: SourceFits(s', i)
    requires forall j: nat | j < |s'.dests| && !(j < |s.dests| && s.dests[j] == s'.dests[j]) :: DestFits(c, s', j)
    requires forall x: nat | |s.events| <= x < |s'.events| :: EventFits(c, s', x)
    ensures Inv(c, s')
  {
    AllPublicGrows(GuardOf(c, s), GuardOf(c, s'), s.known);
    forall t | t in s'.signed ensures SignedFits(c, s', t) {
      if t in s.signed { SignedStaysFit(c, s, s', t); }
    }
    forall i: nat | i < |s'.sources| ensures SourceFits(s', i) {
      if i < |s.sources| && s.sources[i] == s'.sources[i] { assert SourceFits(s, i); }
    }
    forall j: nat | j < |s'.dests| ensures DestFits(c, s', j) {
      if j < |s.dests| && s.dests[j] == s'.dests[j] { assert DestFits(c, s, j); }
    }
    forall x: nat | x < |s'.events| ensures EventFits(c, s', x) {
      if x < |s.events| { EventStaysFit(c, s, s', x); }
    }
  }

  // ----- Reading what was signed -----

  /** A signature the attacker holds under a key kept secret was made by an honest party. */
  lemma SignatureIsHonest(c: Config, s: State, m: Term, a: Atom)
    requires Inv(c, s) && a in Secrets(c) && Public(GuardOf(c, s), Sign(m, Name(a)))
    ensures Sign(m, Name(a)) in s.signed && SignedFits(c, s, Sign(m, Name(a)))
  {
    assert !Public(GuardOf(c, s), Name(a));
  }

  lemma QuoteRead(c: Config, s: State, nonce: Term, suite: Term, pkb: Term) returns (j: nat)
    requires Inv(c, s) && !c.chipKeyLeaked
    requires Public(GuardOf(c, s), Sign(Tuple([W(MeasOk), Challenge(c, suite, pkb, nonce)]), CHIP))
    ensures j < |s.dests| && s.dests[j].nonce == nonce
    ensures c.binding.KeyAndSuite? ==> suite == W(SuiteStrong)
    ensures !c.binding.NonceAlone? ==> pkb == Pk2b(Pk(Recipient(c, j)))
  {
    var m := Tuple([W(MeasOk), Challenge(c, suite, pkb, nonce)]);
    SignatureIsHonest(c, s, m, ChipKey);
    assert m.items[0] == W(MeasOk);
    j :| ChipQuoted(c, s, m, j);
    var d := s.dests[j];
    var rd := m.items[1];
    assert rd.m.items[0] == W(LabelBind);
    assert d.Restored? ==> m != ReceiptQuoteBody(d.receipt);
    var q := QuoteBody(c, j, d.nonce);
    assert m.items[1] == q.items[1];
    var have, want := rd.m.items, q.items[1].m.items;
    assert have == want;
    match c.binding
    case KeyAndSuite => assert have[1] == want[1] && have[2] == want[2] && have[3] == want[3];
    case KeyOnly => assert have[1] == want[1] && have[2] == want[2];
    case NonceAlone => assert have[1] == want[1];
  }

  lemma ReceiptQuoteRead(c: Config, s: State, receipt: Term) returns (j: nat)
    requires Inv(c, s) && !c.chipKeyLeaked
    requires Public(GuardOf(c, s), Sign(ReceiptQuoteBody(receipt), CHIP))
    ensures j < |s.dests| && s.dests[j].Restored? && s.dests[j].receipt == receipt
  {
    var m := ReceiptQuoteBody(receipt);
    SignatureIsHonest(c, s, m, ChipKey);
    assert m.items[0] == W(MeasOk);
    j :| ChipQuoted(c, s, m, j);
    var d := s.dests[j];
    assert m.items[1].m.items[0] == W(LabelReceipt);
    assert QuoteBody(c, j, d.nonce).items[1].m.items[0] == W(LabelBind);
    var m' := ReceiptQuoteBody(d.receipt);
    assert m.items[1] == m'.items[1];
    assert m.items[1].m.items[1] == m'.items[1].m.items[1];
  }

  lemma TokenRead(c: Config, s: State, j: nat, tokenid: Term, m: Term, kid: Term, x: Term) returns (i: nat)
    requires Inv(c, s) && !c.authorityKeyLeaked && j < |s.dests|
    requires Public(GuardOf(c, s), TokenFor(c, s, j, tokenid, m, kid, x))
    ensures i < |s.sources| && s.sources[i].HasReleased()
    ensures s.dests[j].decid == Name(DecisionId(i)) && x == DEK && s.sources[i].pkh == Pk(Recipient(c, j))
  {
    var body := TokenFor(c, s, j, tokenid, m, kid, x).m;
    SignatureIsHonest(c, s, body, AuthorityKey);
    i :| AuthorityWrote(s, body, i);
    assert |body.items| == 8;
    assert |RequestBody(i).items| == 4;
    var o := s.sources[i];
    var t := TokenBody(i, o.suite, o.pkh);
    assert body.items[1] == t.items[1] && body.items[6] == t.items[6];
  }

  lemma StopListRead(c: Config, s: State, serial: Term, flag: Term)
    requires Inv(c, s) && Public(GuardOf(c, s), StopList(serial, flag))
    ensures (serial == W(Serial0) && flag == W(NoStop))
            || (s.late && serial == W(Serial1) && flag == W(StopAll))
  {
    var m := Tuple([serial, flag]);
    SignatureIsHonest(c, s, m, OperatorKey);
    assert m.items[0] == serial && m.items[1] == flag;
    var l0, l1 := Tuple([W(Serial0), W(NoStop)]), Tuple([W(Serial1), W(StopAll)]);
    assert l0.items[0] == W(Serial0) && l0.items[1] == W(NoStop);
    assert l1.items[0] == W(Serial1) && l1.items[1] == W(StopAll);
  }

  // ----- Every step keeps the invariant -----

  lemma ThinkKeeps(c: Config, s: State, d: Deduction)
    requires Inv(c, s) && Enabled(c, s, Think(d))
    ensures Inv(c, Apply(c, s, Think(d)))
  {
    DeductionStaysPublic(GuardOf(c, s), s.known, d);
    InvGrows(c, s, Apply(c, s, Think(d)));
  }

  lemma StartSourceKeeps(c: Config, s: State)
    requires Inv(c, s)
    ensures Inv(c, Apply(c, s, StartSource))
  {
    var s' := Apply(c, s, StartSource);
    var i := |s.sources|;
    assert AuthorityWrote(s', RequestBody(i), i);
    SignedTuplePublic(GuardOf(c, s'), RequestBody(i).items, AUTHORITY);
    InvGrows(c, s, s');
  }

  lemma StartDestKeeps(c: Config, s: State, a: Action)
    requires Inv(c, s) && a.StartDest? && Enabled(c, s, a)
    ensures Inv(c, Apply(c, s, a))
  {
    var s' := Apply(c, s, a);
    var j := |s.dests|;
    assert ChipQuoted(c, s', QuoteBody(c, j, a.nonce), j);
    SignedTuplePublic(GuardOf(c, s'), QuoteBody(c, j, a.nonce).items, CHIP);
    TuplePublic(GuardOf(c, s'), [W(SuiteStrong), Pk2b(Pk(Recipient(c, j))), Sign(QuoteBody(c, j, a.nonce), CHIP)]);
    InvGrows(c, s, s');
  }

  lemma ImpostorKeeps(c: Config, s: State, a: Action)
    requires Inv(c, s) && a.Impostor? && Enabled(c, s, a)
    ensures Inv(c, Apply(c, s, a))
  {
    var s' := Apply(c, s, a);
    assert Public(GuardOf(c, s), a.chal);
    PublicGrows(GuardOf(c, s), GuardOf(c, s'), a.chal);
    SignedTuplePublic(GuardOf(c, s'), [W(MeasBad), a.chal], CHIP);
    InvGrows(c, s, s');
  }

  lemma RaiseStopKeeps(c: Config, s: State)
    requires Inv(c, s) && Enabled(c, s, RaiseStop)
    ensures Inv(c, Apply(c, s, RaiseStop))
  {
    var s' := Apply(c, s, RaiseStop);
    SignedTuplePublic(GuardOf(c, s'), [W(Serial1), W(StopAll)], OPERATOR);
    InvGrows(c, s, s');
  }

  /** What a released token shows the attacker. */
  lemma TokenPublic(g: Guard, i: nat, suite: Term, pkh: Term)
    requires Sign(TokenBody(i, suite, pkh), AUTHORITY) in g.signed
    requires Public(g, suite)
    requires forall a: Atom | a.TokenId? || a.DecisionId? || a.RequestId? || a.Known? :: a !in g.secrets
    requires Public(g, DEK) || (suite == W(SuiteStrong) && g.payload == DEK && Guarded(g, pkh))
    ensures Public(g, Sign(TokenBody(i, suite, pkh), AUTHORITY))
  {
    var aad := Aad(Name(TokenId(i)), W(MeasOk), W(KeyId1));
    var ct := Wrap(suite, DEK, pkh, aad);
    assert Public(g, ct);
    assert Public(g, aad);
    SignedTuplePublic(g, TokenBody(i, suite, pkh).items, AUTHORITY);
  }

  /** The answer a release acts on: its suite, and the session its quote came from. */
  lemma AnswerRead(c: Config, s: State, a: Action) returns (j: nat)
    requires Inv(c, s) && a.Release? && Enabled(c, s, a)
    ensures Public(GuardOf(c, s), a.suite)
    ensures !c.chipKeyLeaked ==> j < |s.dests| && s.dests[j].nonce == Name(Nonce(a.i)) && s.dests[j].at < |s.events|
    ensures !c.chipKeyLeaked && c.binding.KeyAndSuite? ==> a.suite == W(SuiteStrong)
    ensures KeepsRecipient(c) ==> a.pkh == Pk(Recipient(c, j))
  {
    var g := GuardOf(c, s);
    var quote := Sign(Tuple([a.m, a.rd]), CHIP);
    var items := [a.suite, Pk2b(a.pkh), quote];
    assert Public(g, Tuple(items));
    ItemPublic(g, items, 0);
    ItemPublic(g, items, 2);
    j := 0;
    if !c.chipKeyLeaked {
      j := QuoteRead(c, s, Name(Nonce(a.i)), a.suite, Pk2b(a.pkh));
      assert DestFits(c, s, j);
    }
  }

  /** What a release changes. */
  ghost predicate ReleaseStep(c: Config, s: State, a: Action, s': State) {
    && a.Release? && a.i < |s.sources| && s.sources[a.i].Asked?
    && s'.dests == s.dests && s'.late == s.late
    && var (i, x) := (a.i, |s.events|);
    var token := Sign(TokenBody(i, a.suite, a.pkh), AUTHORITY);
    var events := s.events + [EvAuthorized(i, Name(DecisionId(i)), W(MeasOk), a.pkh), EvAuthorizedIn(i, s.late)];
    if CanWrap(a.suite) then
      && s'.sources == s.sources[i := Sent(s.late, a.suite, a.pkh, x)]
      && s'.events == events + [EvReleased(i, Name(TokenId(i)), Name(DecisionId(i)), DEK)]
      && s'.known == s.known + {token} && s'.signed == s.signed + {token}
    else
      && s'.sources == s.sources[i := Halted(s.late, x)] && s'.events == events
      && s'.known == s.known && s'.signed == s.signed
  }

  lemma ReleaseSteps(c: Config, s: State, a: Action)
    requires a.Release? && Enabled(c, s, a)
    ensures ReleaseStep(c, s, a, Apply(c, s, a))
  {
  }

  lemma ReleaseEventsFit(c: Config, s: State, a: Action, s': State)
    requires Inv(c, s) && a.Release? && Enabled(c, s, a) && ReleaseStep(c, s, a, s')
    ensures forall x: nat | |s.events| <= x < |s'.events| :: EventFits(c, s', x)
  {
    var x := |s.events|;
    var j := AnswerRead(c, s, a);
    StopListRead(c, s, a.serial, a.flag);
    if KeepsRecipient(c) { assert GeneratedFor(c, s', a.i, a.pkh, x, j); }
    assert s'.sources[a.i].at == x;
    assert s'.events[x] == EvAuthorized(a.i, Name(DecisionId(a.i)), W(MeasOk), a.pkh);
    assert EventFits(c, s', x);
    assert s'.events[x + 1] == EvAuthorizedIn(a.i, s.late);
  }

  lemma ReleaseSignatureFits(c: Config, s: State, a: Action, s': State)
    requires Inv(c, s) && a.Release? && Enabled(c, s, a) && ReleaseStep(c, s, a, s') && CanWrap(a.suite)
    ensures var token := Sign(TokenBody(a.i, a.suite, a.pkh), AUTHORITY);
            SignedFits(c, s', token) && Public(GuardOf(c, s'), token)
  {
    var j := AnswerRead(c, s, a);
    TokenShown(c, s, s', a, j);
    assert AuthorityWrote(s', TokenBody(a.i, a.suite, a.pkh), a.i);
  }

  lemma TokenShown(c: Config, s: State, s': State, a: Action, j: nat)
    requires a.Release? && s.signed <= s'.signed && Sign(TokenBody(a.i, a.suite, a.pkh), AUTHORITY) in s'.signed
    requires Public(GuardOf(c, s), a.suite)
    requires KeepsKey(c) ==> a.suite == W(SuiteStrong) && a.pkh == Pk(Recipient(c, j))
    ensures Public(GuardOf(c, s'), Sign(TokenBody(a.i, a.suite, a.pkh), AUTHORITY))
  {
    var g, g' := GuardOf(c, s), GuardOf(c, s');
    PublicGrows(g, g', a.suite);
    if KeepsKey(c) {
      assert RecipientKey(j) in Secrets(c);
      assert Guarded(g', a.pkh);
    } else {
      assert GenomeKey !in Secrets(c);
      assert Public(g', DEK);
    }
    TokenPublic(g', a.i, a.suite, a.pkh);
  }

  lemma ReleaseStepKeeps(c: Config, s: State, a: Action, s': State)
    requires Inv(c, s) && ReleaseStep(c, s, a, s')
    requires forall x: nat | |s.events| <= x < |s'.events| :: EventFits(c, s', x)
    requires CanWrap(a.suite) ==>
               var token := Sign(TokenBody(a.i, a.suite, a.pkh), AUTHORITY);
               SignedFits(c, s', token) && Public(GuardOf(c, s'), token)
    ensures Inv(c, s')
  {
    InvGrows(c, s, s');
  }

  lemma ReleaseKeeps(c: Config, s: State, a: Action)
    requires Inv(c, s) && a.Release? && Enabled(c, s, a)
    ensures Inv(c, Apply(c, s, a))
  {
    var s' := Apply(c, s, a);
    ReleaseSteps(c, s, a);
    ReleaseEventsFit(c, s, a, s');
    if CanWrap(a.suite) { ReleaseSignatureFits(c, s, a, s'); }
    ReleaseStepKeeps(c, s, a, s');
  }

  lemma ConfirmedRestore(c: Config, s: State, a: Action) returns (j: nat)
    requires Inv(c, s) && a.Confirm? && Enabled(c, s, a) && KeepsReceipt(c)
    ensures RestoredFor(s, a.i, |s.events|, j)
  {
    var message := Tuple([a.receipt, Sign(ReceiptQuoteBody(a.receipt), CHIP)]);
    assert Public(GuardOf(c, s), message);
    ItemPublic(GuardOf(c, s), message.items, 1);
    j := ReceiptQuoteRead(c, s, a.receipt);
    assert DestFits(c, s, j);
    var e := s.events[s.dests[j].restoredAt];
    var reqid, tokenid :| a.receipt == Receipt(c, e.keyId, s.dests[j].decid, reqid, tokenid);
    assert a.receipt.items[0] == e.keyId && a.receipt.items[1] == s.dests[j].decid;
  }

  lemma ConfirmKeeps(c: Config, s: State, a: Action)
    requires Inv(c, s) && a.Confirm? && Enabled(c, s, a)
    ensures Inv(c, Apply(c, s, a))
  {
    var s' := Apply(c, s, a);
    assert SourceFits(s, a.i);
    if KeepsReceipt(c) {
      var j := ConfirmedRestore(c, s, a);
      assert RestoredFor(s', a.i, |s.events|, j);
    }
    InvGrows(c, s, s');
  }

  /** What a receipt shows the attacker was in the token already. */
  lemma ReceiptPublic(c: Config, g: Guard, token: seq<Term>)
    requires |token| == 8 && Public(g, Tuple(token))
    requires Public(g, W(MeasOk))
    ensures Public(g, Receipt(c, token[4], token[1], token[2], token[0]))
  {
    ItemPublic(g, token, 0);
    ItemPublic(g, token, 1);
    ItemPublic(g, token, 2);
    ItemPublic(g, token, 4);
    TuplePublic(g, Receipt(c, token[4], token[1], token[2], token[0]).items);
  }

  /** What a restore changes. */
  ghost predicate RestoreStep(c: Config, s: State, a: Action, s': State) {
    && a.Restore? && a.j < |s.dests| && s.dests[a.j].Answered?
    && TokenFor(c, s, a.j, a.tokenid, a.m, a.kid, a.x) in s.known
    && var (j, d, x) := (a.j, s.dests[a.j], |s.events|);
    var receipt := Receipt(c, a.kid, d.decid, d.reqid, a.tokenid);
    var quote := Sign(ReceiptQuoteBody(receipt), CHIP);
    && s'.known == s.known + {Tuple([receipt, quote])} && s'.signed == s.signed + {quote}
    && s'.sources == s.sources && s'.late == s.late
    && s'.dests == s.dests[j := Restored(d.late, d.reqid, d.decid, d.nonce, d.at, receipt, x + 1)]
    && s'.events == s.events + [EvOpened(j, d.decid, a.x), EvRestored(j, d.decid, a.kid, W(MeasOk))]
  }

  lemma RestoreSteps(c: Config, s: State, a: Action)
    requires a.Restore? && Enabled(c, s, a)
    ensures RestoreStep(c, s, a, Apply(c, s, a))
  {
  }

  lemma RestoredDestFits(c: Config, s: State, a: Action, s': State)
    requires RestoreStep(c, s, a, s') && DestFits(c, s, a.j)
    ensures DestFits(c, s', a.j)
  {
    var j, x, d := a.j, |s.events|, s.dests[a.j];
    assert s'.events[x + 1] == EvRestored(j, d.decid, a.kid, W(MeasOk));
    assert s'.dests[j].receipt == Receipt(c, a.kid, d.decid, d.reqid, a.tokenid);
    assert ReceiptFits(c, j, s'.dests[j], s'.events[x + 1]);
  }

  lemma OpenedFits(c: Config, s: State, a: Action, s': State)
    requires Inv(c, s) && RestoreStep(c, s, a, s')
    ensures EventFits(c, s', |s.events|)
  {
    var j, x, d := a.j, |s.events|, s.dests[a.j];
    if KeepsAuthorization(c) {
      var i := TokenRead(c, s, j, a.tokenid, a.m, a.kid, a.x);
      assert SourceFits(s, i);
      assert ReleasedFor(c, s', d.decid, a.x, x, j, i);
    }
    assert s'.events[x] == EvOpened(j, d.decid, a.x);
  }

  /** The receipt and its quote show the attacker what the token did. */
  lemma RestoreShown(c: Config, s: State, s': State, a: Action)
    requires a.Restore? && a.j < |s.dests| && s.signed <= s'.signed
    requires Public(GuardOf(c, s), TokenFor(c, s, a.j, a.tokenid, a.m, a.kid, a.x))
    requires var d := s.dests[a.j];
             Sign(ReceiptQuoteBody(Receipt(c, a.kid, d.decid, d.reqid, a.tokenid)), CHIP) in s'.signed
    ensures var d := s.dests[a.j];
            var receipt := Receipt(c, a.kid, d.decid, d.reqid, a.tokenid);
            Public(GuardOf(c, s'), Tuple([receipt, Sign(ReceiptQuoteBody(receipt), CHIP)]))
  {
    var g, g', d := GuardOf(c, s), GuardOf(c, s'), s.dests[a.j];
    var receipt := Receipt(c, a.kid, d.decid, d.reqid, a.tokenid);
    var quote := ReceiptQuoteBody(receipt);
    var token := TokenFor(c, s, a.j, a.tokenid, a.m, a.kid, a.x).m;
    PublicGrows(g, g', token);
    ReceiptPublic(c, g', token.items);
    SignedTuplePublic(g', quote.items, CHIP);
    TuplePublic(g', [receipt, Sign(quote, CHIP)]);
  }

  lemma RestoreStepKeeps(c: Config, s: State, a: Action, s': State)
    requires Inv(c, s) && RestoreStep(c, s, a, s')
    ensures Inv(c, s')
  {
    var j, d, x := a.j, s.dests[a.j], |s.events|;
    assert DestFits(c, s, j);
    RestoredDestFits(c, s, a, s');
    OpenedFits(c, s, a, s');
    RestoreShown(c, s, s', a);
    assert ChipQuoted(c, s', ReceiptQuoteBody(s'.dests[j].receipt), j);
    assert s'.events[x + 1] == EvRestored(j, d.decid, a.kid, W(MeasOk));
    InvGrows(c, s, s');
  }

  lemma RestoreKeeps(c: Config, s: State, a: Action)
    requires Inv(c, s) && a.Restore? && Enabled(c, s, a)
    ensures Inv(c, Apply(c, s, a))
  {
    RestoreSteps(c, s, a);
    RestoreStepKeeps(c, s, a, Apply(c, s, a));
  }

  lemma StepKeeps(c: Config, s: State, a: Action)
    requires Inv(c, s)
    ensures Inv(c, Step(c, s, a))
  {
    if Enabled(c, s, a) {
      match a
      case Think(d) => ThinkKeeps(c, s, d);
      case StartSource => StartSourceKeeps(c, s);
      case Release(_, _, _, _, _, _, _) => ReleaseKeeps(c, s, a);
      case Confirm(_, _) => ConfirmKeeps(c, s, a);
      case StartDest(_, _, _, _) => StartDestKeeps(c, s, a);
      case Restore(_, _, _, _, _) => RestoreKeeps(c, s, a);
      case Impostor(_) => ImpostorKeeps(c, s, a);
      case RaiseStop => RaiseStopKeeps(c, s);
    }
  }

  /** The invariant holds in every state of every run. */
  lemma {:induction false} RunKeeps(c: Config, run: seq<Action>)
    ensures Inv(c, Exec(c, run))
  {
    if run != [] {
      RunKeeps(c, run[..|run| - 1]);
      StepKeeps(c, Exec(c, run[..|run| - 1]), run[|run| - 1]);
    } else {
      SignedTuplePublic(GuardOf(c, Init(c)), [W(Serial0), W(NoStop)], OPERATOR);
    }
  }
}
