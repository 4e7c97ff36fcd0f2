/** The table of the failover, for every configuration: the attack runs, and each query holding
    exactly when what it rests on is in place. */
module FailoverTheorems {
  import opened Terms
  import opened Attacker
  import opened Failover
  import opened FailoverSafety

  // ----- Runs -----

  ghost predicate Reachable(c: Config, s: State) { exists run :: s == Exec(c, run) }

  lemma Start(c: Config) returns (s: State)
    ensures s == Init(c) && Reachable(c, s)
  {
    s := Init(c);
    assert s == Exec(c, []);
  }

  lemma Take(c: Config, s: State, a: Action) returns (s': State)
    requires Reachable(c, s) && Enabled(c, s, a)
    ensures s' == Apply(c, s, a) && Reachable(c, s')
  {
    var run :| s == Exec(c, run);
    s' := Apply(c, s, a);
    assert (run + [a])[..|run|] == run;
    assert s' == Exec(c, run + [a]);
  }

  /** s' is s with more known and more signed, and nothing else. */
  ghost predicate Hears(s: State, s': State) {
    s.known <= s'.known && s' == s.(known := s'.known, signed := s'.signed)
  }

  lemma Learn(c: Config, s: State, d: Deduction) returns (s': State)
    requires Reachable(c, s) && CanDeduce(s.known, d)
    ensures Reachable(c, s') && s' == s.(known := s.known + {Deduced(d)})
  {
    s' := Take(c, s, Think(d));
  }

  lemma {:induction false} LearnAll(c: Config, s: State, ds: seq<Deduction>) returns (s': State)
    requires Reachable(c, s)
    ensures Reachable(c, s') && s' == s.(known := Derive(s.known, ds))
  {
    s' := s;
    if ds != [] {
      s' := LearnAll(c, s, ds[..|ds| - 1]);
      if CanDeduce(s'.known, ds[|ds| - 1]) { s' := Learn(c, s', ds[|ds| - 1]); }
    }
  }

  lemma Build(c: Config, s: State, t: Term) returns (s': State)
    requires Reachable(c, s) && Buildable(s.known, t)
    ensures Reachable(c, s') && Hears(s, s') && t in s'.known
  {
    var ds := DeduceBuildable(s.known, t);
    s' := LearnAll(c, s, ds);
  }

  const EVE := Name(Invented(0))

  // ----- What a forger can do -----

  /** A quote at the primary's measurement over a record of the attacker's, when there is a way to
      get one or nobody asks for it. */
  lemma ForgeQuote(c: Config, s: State, record: Term) returns (s': State, quote: Term)
    requires Reachable(c, s) && CanForge(c) && record in s.known
    requires c.chipKeyLeaked ==> CHIP in s.known
    ensures Reachable(c, s') && Hears(s, s') && quote in s'.known
    ensures c.pinsChip ==> quote == RecordQuote(W(MeasPrimary), record)
  {
    if !c.pinsChip {
      quote := EVE;
      s' := Learn(c, s, Invent(Invented(0)));
    } else {
      quote := RecordQuote(W(MeasPrimary), record);
      var challenge := quote.m.items[1];
      assert Buildable(s.known, challenge.m);
      s' := Build(c, s, challenge);
      if c.primaryCompromised {
        s' := Take(c, s', PrimaryChip(challenge));
      } else {
        assert Buildable(s'.known, quote.m);
        s' := Build(c, s', quote);
      }
    }
  }

  /** A record signed with the sentinel's seed, as the outbox would hold it. */
  lemma ForgeRecord(c: Config, s: State, record: Term) returns (s': State, quote: Term)
    requires Reachable(c, s) && CanForge(c) && Buildable(s.known, record) && SENTINEL in s.known
    requires c.chipKeyLeaked ==> CHIP in s.known
    ensures Reachable(c, s') && Hears(s, s')
    ensures Tuple([record, Sign(record, SENTINEL), quote]) in s'.known
    ensures c.pinsChip ==> quote == RecordQuote(W(MeasPrimary), record)
  {
    s' := Build(c, s, record);
    s', quote := ForgeQuote(c, s', record);
    s' := Learn(c, s', MakeSign(record, SENTINEL));
    s' := Build(c, s', Tuple([record, Sign(record, SENTINEL), quote]));
  }

  function PolicyCase(glast: Term, dsb: Term, reportQuote: Term, envelope: Term, parent: Term, sealQuote: Term): Case {
    Case(W(PolicySerial), SENTINEL, W(MeasPrimary), W(MeasStandby), glast, dsb, reportQuote,
         H(W(BundleBytes)), envelope, parent, sealQuote)
  }

  /** The executor acts on a trigger and a generation the sentinel never wrote. */
  lemma DecideOnForgery(c: Config) returns (s: State)
    requires CanForge(c)
    ensures Reachable(c, s)
    ensures s.events == [EvPolicyIssued(W(PolicySerial)), EvPolicyNames(W(PolicySerial), W(MeasStandby)),
                         EvDecided(W(PolicySerial), EVE), EvChosen(EVE)]
  {
    var reportQuote, sealQuote;
    s := Start(c);
    s := Take(c, s, IssuePolicy);
    s, reportQuote, sealQuote := ForgeBoth(c, s);
    var k := PolicyCase(EVE, W(MeasStandby), reportQuote, EVE, EVE, sealQuote);
    assert k.Report() == FORGED_REPORT && k.Record() == FORGED_RECORD;
    s := Take(c, s, Decide(k));
  }

  const FORGED_REPORT := Tuple([W(ReportTag), EVE, W(MeasStandby)])
  const FORGED_RECORD := Tuple([W(SealTag), EVE, H(W(BundleBytes)), EVE, EVE])

  /** A trigger and a record of a generation that is not there. */
  lemma ForgeBoth(c: Config, s: State) returns (s': State, reportQuote: Term, sealQuote: Term)
    requires Reachable(c, s) && CanForge(c) && SENTINEL in s.known && (c.chipKeyLeaked ==> CHIP in s.known)
    ensures Reachable(c, s') && Hears(s, s')
    ensures Tuple([FORGED_REPORT, Sign(FORGED_REPORT, SENTINEL), reportQuote]) in s'.known
    ensures Tuple([FORGED_RECORD, Sign(FORGED_RECORD, SENTINEL), sealQuote]) in s'.known
    ensures c.pinsChip ==>
              && reportQuote == RecordQuote(W(MeasPrimary), FORGED_REPORT)
              && sealQuote == RecordQuote(W(MeasPrimary), FORGED_RECORD)
  {
    assert Buildable(s.known, FORGED_REPORT);
    s', reportQuote := ForgeRecord(c, s, FORGED_REPORT);
    assert Buildable(s'.known, FORGED_RECORD);
    s', sealQuote := ForgeRecord(c, s', FORGED_RECORD);
  }

  // ----- Getting the genome key out -----

  /** The executor has decided on the sentinel's generation and will release to want. */
  ghost predicate ReadyFor(s: State, want: Term) {
    && !s.late && Pk(AUTHORITY) in s.known && StopList(W(Serial0), W(NoStop)) in s.known
    && s.executors == [Decided(false, W(PolicySerial), KG, want)]
    && Sign(RequestBody(0), AUTHORITY) in s.known
  }

  ghost predicate NeverNamed(s: State, want: Term) {
    forall x | 0 <= x < |s.events| && s.events[x].EvPolicyNames? :: s.events[x].measurement != want
  }

  const WORM_REPORT := Tuple([W(ReportTag), W(Generation1), W(MeasBad)])

  /** The policy issued and the generation sealed, the attacker writes the report. */
  lemma WriteReport(c: Config) returns (s: State, quote: Term)
    requires CanForge(c)
    ensures Reachable(c, s) && !s.late && s.executors == []
    ensures s.events == [EvPolicyIssued(W(PolicySerial)), EvPolicyNames(W(PolicySerial), W(MeasStandby)),
                        EvSealed(W(Generation1))]
    ensures StopList(W(Serial0), W(NoStop)) in s.known && Pk(AUTHORITY) in s.known
    ensures Sign(POLICY_BODY, OPERATOR) in s.known && Pk(CHIP) in s.known && (c.chipKeyLeaked ==> CHIP in s.known)
    ensures Tuple([SEAL_BODY, Sign(SEAL_BODY, SENTINEL), RecordQuote(W(MeasPrimary), SEAL_BODY)]) in s.known
    ensures Tuple([WORM_REPORT, Sign(WORM_REPORT, SENTINEL), quote]) in s.known
    ensures c.pinsChip ==> quote == RecordQuote(W(MeasPrimary), WORM_REPORT)
  {
    s := Start(c);
    s := Take(c, s, IssuePolicy);
    s := Take(c, s, SealGeneration);
    assert Buildable(s.known, WORM_REPORT);
    s, quote := ForgeRecord(c, s, WORM_REPORT);
  }

  /** The worm: the report names the standby, and the attacker writes the report. */
  lemma DecideForImpostor(c: Config) returns (s: State)
    requires CanForge(c) && c.standbyFromReport
    ensures Reachable(c, s) && ReadyFor(s, W(MeasBad)) && NeverNamed(s, W(MeasBad))
  {
    var quote;
    s, quote := WriteReport(c);
    var k := PolicyCase(W(Generation1), W(MeasBad), quote, SEAL_BODY.items[3], W(Generation0),
                        RecordQuote(W(MeasPrimary), SEAL_BODY));
    assert k.Report() == WORM_REPORT && k.Record() == SEAL_BODY;
    s := Take(c, s, Decide(k));
  }

  lemma DecideHonestly(c: Config) returns (s: State)
    ensures Reachable(c, s) && ReadyFor(s, W(MeasStandby))
    ensures c.chipKeyLeaked ==> CHIP in s.known
  {
    s := SentinelWrites(c);
    var run :| s == Exec(c, run);
    RunPublishes(c, run);
    s := DecideAgain(c, s);
  }

  // ----- The failover completes -----

  /** What is in the outbox once it was written. */
  ghost predicate Published(s: State) {
    && StopList(W(Serial0), W(NoStop)) in s.known
    && (s.issued ==> Sign(POLICY_BODY, OPERATOR) in s.known)
    && (s.sealed ==> Tuple([SEAL_BODY, Sign(SEAL_BODY, SENTINEL), RecordQuote(W(MeasPrimary), SEAL_BODY)]) in s.known)
    && (s.reported ==>
          Tuple([REPORT_BODY, Sign(REPORT_BODY, SENTINEL), RecordQuote(W(MeasPrimary), REPORT_BODY)]) in s.known)
  }

  lemma {:induction false} RunPublishes(c: Config, run: seq<Action>)
    ensures Published(Exec(c, run))
  {
    if run != [] {
      RunPublishes(c, run[..|run| - 1]);
      var s, a := Exec(c, run[..|run| - 1]), run[|run| - 1];
      if Enabled(c, s, a) { StepPublishes(c, s, a); }
    }
  }

  lemma StepPublishes(c: Config, s: State, a: Action)
    requires Enabled(c, s, a) && Published(s)
    ensures Published(Apply(c, s, a))
  {
    if OfSession(a) {
      SessionPublishes(c, s, a);
    } else {
      OthersPublish(c, s, a);
    }
  }

  predicate OfSession(a: Action) { a.Decide? || a.Release? || a.StartStandby? || a.Open? }

  lemma SessionPublishes(c: Config, s: State, a: Action)
    requires Enabled(c, s, a) && Published(s) && OfSession(a)
    ensures Published(Apply(c, s, a))
  {
    match a
    case Decide(k) => assert Published(s.(events := s.events + [EvDecided(k.serial, k.glast), EvChosen(k.glast)]));
    case Release(_, _, _, _, _, _, _) =>
    case _ =>
  }

  lemma OthersPublish(c: Config, s: State, a: Action)
    requires Enabled(c, s, a) && Published(s) && !OfSession(a)
    ensures Published(Apply(c, s, a))
  {
    match a
    case Think(_) =>
    case RaiseStop =>
    case _ =>
  }

  /** What a whole failover adds to the trace. */
  const FAILED_OVER := [EvDecided(W(PolicySerial), W(Generation1)), EvChosen(W(Generation1)),
                        EvReleased(W(PolicySerial), W(MeasStandby)), EvAuthorizedIn(false),
                        EvOpened(W(PolicySerial), KG)]

  /** In every configuration, and whatever ran before: while the stop is not raised and the policy, the
      generation and the report are out, an executor can decide, release to a standby at the
      measurement the policy names, and the standby open the genome key. */
  lemma FailoverCompletes(c: Config, s: State) returns (s': State)
    requires Reachable(c, s) && !s.late && s.issued && s.sealed && s.reported
    ensures Reachable(c, s') && s'.events == s.events + FAILED_OVER
  {
    var run :| s == Exec(c, run);
    RunPublishes(c, run);
    s' := DecideAgain(c, s);
    s' := ReleaseToStandby(c, s', |s.executors|);
    s' := Take(c, s', Open(|s.standbys|, Name(TokenId(|s.executors|)), W(MeasStandby), W(KeyId1), KG, W(PolicySerial)));
  }

  /** A next standby answers the i-th request, and the executor releases to it. */
  lemma ReleaseToStandby(c: Config, s: State, i: nat) returns (s': State)
    requires Reachable(c, s) && !s.late && StopList(W(Serial0), W(NoStop)) in s.known
    requires i < |s.executors| && s.executors[i] == Decided(false, W(PolicySerial), KG, W(MeasStandby))
    requires Sign(RequestBody(i), AUTHORITY) in s.known
    ensures Reachable(c, s') && !s'.late
    ensures var j := |s.standbys|;
            && |s'.standbys| == j + 1 && s'.standbys[j].Answered? && !s'.standbys[j].late
            && TokenFor(s', j, Name(TokenId(i)), W(MeasStandby), W(KeyId1), KG, W(PolicySerial)) in s'.known
    ensures s'.events == s.events + FAILED_OVER[2..4]
  {
    var j := |s.standbys|;
    var pk := Pk(StandbyKey(j));
    var challenge := Challenge(W(SuiteStrong), Pk2b(pk), Name(Nonce(i)));
    s' := Take(c, s, StartStandby(Name(RequestId(i)), Name(DecisionId(i)), Name(Nonce(i)), W(Kind)));
    s' := Take(c, s', Release(i, W(SuiteStrong), pk, W(MeasStandby), challenge, W(Serial0), W(NoStop)));
    assert Sign(TokenBody(i, s'.executors[i]), AUTHORITY)
           == TokenFor(s', j, Name(TokenId(i)), W(MeasStandby), W(KeyId1), KG, W(PolicySerial));
  }

  /** An executor decides on what the sentinel wrote. */
  lemma DecideAgain(c: Config, s: State) returns (s': State)
    requires Reachable(c, s) && Published(s) && s.issued && s.sealed && s.reported
    ensures Reachable(c, s') && s.known <= s'.known && Sign(RequestBody(|s.executors|), AUTHORITY) in s'.known
    ensures s' == s.(known := s'.known, signed := s'.signed,
                     executors := s.executors + [Decided(s.late, W(PolicySerial), KG, W(MeasStandby))],
                     events := s.events + FAILED_OVER[..2])
  {
    var k := PolicyCase(W(Generation1), W(MeasStandby), RecordQuote(W(MeasPrimary), REPORT_BODY),
                        SEAL_BODY.items[3], W(Generation0), RecordQuote(W(MeasPrimary), SEAL_BODY));
    assert k.Report() == REPORT_BODY && k.Record() == SEAL_BODY;
    s' := Take(c, s, Decide(k));
  }

  /** The policy, the generation and the report do come out. */
  lemma SentinelWrites(c: Config) returns (s: State)
    ensures Reachable(c, s) && !s.late && s.issued && s.sealed && s.reported
    ensures s.executors == [] && s.known >= Init(c).known
  {
    s := Start(c);
    s := Take(c, s, IssuePolicy);
    s := Take(c, s, SealGeneration);
    s := Take(c, s, ReportCompromise);
  }

  // ----- Getting it out elsewhere -----

  function EveChallenge(): Term { Challenge(W(SuiteStrong), Pk2b(Pk(EVE)), Name(Nonce(0))) }

  lemma LearnChallenge(c: Config, s: State) returns (s': State)
    requires Reachable(c, s) && Sign(RequestBody(0), AUTHORITY) in s.known && Pk(AUTHORITY) in s.known
    ensures Reachable(c, s') && Hears(s, s') && EveChallenge() in s'.known && EVE in s'.known && Pk(EVE) in s'.known
  {
    s' := Learn(c, s, ReadSigned(RequestBody(0), AUTHORITY));
    s' := Learn(c, s', ReadItem(RequestBody(0).items, 2));
    s' := Learn(c, s', Invent(Invented(0)));
    s' := Learn(c, s', MakePk(EVE));
    assert Buildable(s'.known, EveChallenge().m);
    s' := Build(c, s', EveChallenge());
  }

  /** With a quote at the wanted measurement over its own key, the attacker gets the release. */
  lemma ReleaseToEve(c: Config, s: State, want: Term) returns (s': State)
    requires Reachable(c, s) && ReadyFor(s, want) && EVE in s.known && Pk(EVE) in s.known
    requires Sign(Tuple([want, EveChallenge()]), CHIP) in s.known
    ensures Reachable(c, s') && KG in s'.known
    ensures s'.events == s.events + [EvReleased(W(PolicySerial), want), EvAuthorizedIn(false)]
  {
    s' := Build(c, s, Tuple([W(SuiteStrong), Pk2b(Pk(EVE)), Sign(Tuple([want, EveChallenge()]), CHIP)]));
    s' := Take(c, s', Release(0, W(SuiteStrong), Pk(EVE), want, EveChallenge(), W(Serial0), W(NoStop)));
    s' := OpenToken(c, s', TokenBody(0, s'.executors[0]), Aad(Name(TokenId(0)), want, W(KeyId1)));
  }

  lemma OpenToken(c: Config, s: State, body: Term, aad: Term) returns (s': State)
    requires Reachable(c, s) && EVE in s.known && Pk(AUTHORITY) in s.known && Sign(body, AUTHORITY) in s.known
    requires body.Tuple? && |body.items| > 7 && body.items[6] == Hpke(KG, Pk(EVE), aad) && body.items[7] == aad
    ensures Reachable(c, s') && KG in s'.known && s'.events == s.events
  {
    s' := Learn(c, s, ReadSigned(body, AUTHORITY));
    s' := Learn(c, s', ReadItem(body.items, 6));
    s' := Learn(c, s', ReadItem(body.items, 7));
    s' := Learn(c, s', OpenHpke(KG, EVE, aad));
  }

  lemma ReleaseToImpostor(c: Config) returns (s: State, x: nat)
    requires CanForge(c) && c.standbyFromReport
    ensures Reachable(c, s) && KG in s.known && NeverNamed(s, W(MeasBad))
    ensures x < |s.events| && s.events[x] == EvReleased(W(PolicySerial), W(MeasBad))
  {
    s := DecideForImpostor(c);
    s := LearnChallenge(c, s);
    s := Take(c, s, Impostor(EveChallenge()));
    x := |s.events|;
    s := ReleaseToEve(c, s, W(MeasBad));
  }

  lemma StealWithChipKey(c: Config) returns (s: State)
    requires c.chipKeyLeaked
    ensures Reachable(c, s) && KG in s.known
  {
    s := DecideHonestly(c);
    s := LearnChallenge(c, s);
    var body := Tuple([W(MeasStandby), EveChallenge()]);
    s := Build(c, s, body);
    s := Learn(c, s, MakeSign(body, CHIP));
    s := ReleaseToEve(c, s, W(MeasStandby));
  }

  // ----- The queries, exactly -----

  ghost predicate KeySecret(c: Config) { forall run :: KG !in Exec(c, run).known }

  ghost predicate DecisionsUnderPolicy(c: Config) {
    forall run, x: nat | x < |Exec(c, run).events| && Exec(c, run).events[x].EvDecided? ::
      EvPolicyIssued(Exec(c, run).events[x].serial) in Exec(c, run).events[..x]
  }

  ghost predicate ReleasesNamed(c: Config) {
    forall run, x: nat | x < |Exec(c, run).events| && Exec(c, run).events[x].EvReleased? ::
      EvPolicyNames(Exec(c, run).events[x].serial, Exec(c, run).events[x].measurement) in Exec(c, run).events[..x]
  }

  ghost predicate TriggersReported(c: Config) {
    forall run, x: nat | x < |Exec(c, run).events| && Exec(c, run).events[x].EvDecided? ::
      EvReported(Exec(c, run).events[x].generation) in Exec(c, run).events[..x]
  }

  ghost predicate ChoicesSealed(c: Config) {
    forall run, x: nat | x < |Exec(c, run).events| && Exec(c, run).events[x].EvChosen? ::
      EvSealed(Exec(c, run).events[x].generation) in Exec(c, run).events[..x]
  }

  ghost predicate OpeningsDecided(c: Config) {
    forall run, x: nat | x < |Exec(c, run).events| && Exec(c, run).events[x].EvOpened? ::
      exists g :: DecidedIn(Exec(c, run).events[..x], Exec(c, run).events[x].serial, g)
  }

  ghost predicate StopIsFinal(c: Config) {
    forall run, x: nat | x < |Exec(c, run).events| && Exec(c, run).events[x].EvAuthorizedIn? ::
      !Exec(c, run).events[x].late
  }

  /** Every event of every run fits the invariant. */
  lemma EventsFit(c: Config, run: seq<Action>)
    ensures forall x: nat | x < |Exec(c, run).events| :: EventFits(c, Exec(c, run), x)
  {
    RunKeeps(c, run);
  }

  /** G: the genome key stays secret exactly while the chips' key has not leaked and no report the
      attacker writes names the standby. */
  lemma SecrecyExactly(c: Config)
    ensures KeySecret(c) <==>
            !c.chipKeyLeaked && !(c.standbyFromReport && c.seedLeaked && (!c.pinsChip || c.primaryCompromised))
  {
    if KeepsKey(c) {
      forall run ensures KG !in Exec(c, run).known {
        RunKeeps(c, run);
        assert !Public(GuardOf(c, Exec(c, run)), KG);
      }
    } else {
      var s;
      if c.chipKeyLeaked { s := StealWithChipKey(c); } else { var x; s, x := ReleaseToImpostor(c); }
      var run :| s == Exec(c, run);
      assert KG in Exec(c, run).known;
    }
  }

  /** The standby can open the genome key. */
  ghost predicate CanOpen(c: Config) {
    exists run :: EvOpened(W(PolicySerial), KG) in Exec(c, run).events
  }

  lemma HonestlyOpens(c: Config)
    ensures CanOpen(c)
  {
    var s := SentinelWrites(c);
    s := FailoverCompletes(c, s);
    var done :| s == Exec(c, done);
    assert s.events[|s.events| - 1] == EvOpened(W(PolicySerial), KG);
  }

  /** F1, F5 and P hold whatever of this is missing or leaked, and not for want of an opening. */
  lemma AlwaysHold(c: Config)
    ensures DecisionsUnderPolicy(c) && OpeningsDecided(c) && StopIsFinal(c) && CanOpen(c)
  {
    HonestlyOpens(c);
    forall run, x: nat | x < |Exec(c, run).events| && Exec(c, run).events[x].EvDecided?
      ensures EvPolicyIssued(Exec(c, run).events[x].serial) in Exec(c, run).events[..x]
    {
      EventsFit(c, run);
      assert EventFits(c, Exec(c, run), x);
    }
    forall run, x: nat | x < |Exec(c, run).events| && Exec(c, run).events[x].EvOpened?
      ensures exists g :: DecidedIn(Exec(c, run).events[..x], Exec(c, run).events[x].serial, g)
    {
      EventsFit(c, run);
      assert EventFits(c, Exec(c, run), x);
    }
    forall run, x: nat | x < |Exec(c, run).events| && Exec(c, run).events[x].EvAuthorizedIn?
      ensures !Exec(c, run).events[x].late
    {
      EventsFit(c, run);
      assert EventFits(c, Exec(c, run), x);
    }
  }

  /** The stop can be raised whatever ran before, and from then on nothing is released, whatever runs
      after; so a failover completes just while the stop is not raised. */
  lemma {:induction false} StopEndsReleases(c: Config, run: seq<Action>, more: seq<Action>)
    requires !Exec(c, run).late
    ensures var (s, s') := (Exec(c, run), Exec(c, run + [RaiseStop] + more));
            && s'.late && s.events <= s'.events
            && forall x | |s.events| <= x < |s'.events| :: !s'.events[x].EvReleased?
    decreases |more|
  {
    var raised := run + [RaiseStop];
    var all := raised + more;
    if more == [] {
      assert all == raised && raised[..|run|] == run;
    } else {
      var init := more[..|more| - 1];
      StopEndsReleases(c, run, init);
      assert all[..|all| - 1] == raised + init;
      LateReleasesNothing(c, raised + init, more[|more| - 1]);
    }
  }

  lemma LateReleasesNothing(c: Config, run: seq<Action>, a: Action)
    requires Exec(c, run).late
    ensures var (s, s') := (Exec(c, run), Step(c, Exec(c, run), a));
            && s'.late && s.events <= s'.events
            && forall x | |s.events| <= x < |s'.events| :: !s'.events[x].EvReleased?
  {
    var s, s' := Exec(c, run), Step(c, Exec(c, run), a);
    assert (run + [a])[..|run|] == run;
    assert Exec(c, run + [a]) == s';
    EventsFit(c, run + [a]);
    var x := |s.events| + 1;
    assert x < |s'.events| && s'.events[x] == EvAuthorizedIn(true) ==> !EventFits(c, s', x);
  }

  /** The sessions begun before the stop are in s' as they are in s. */
  ghost predicate EarlyStay(s: State, s': State) {
    && s'.late && |s.executors| <= |s'.executors| && |s.standbys| <= |s'.standbys|
    && (forall i | 0 <= i < |s.executors| && !s.executors[i].late :: s'.executors[i] == s.executors[i])
    && (forall j | 0 <= j < |s.standbys| && !s.standbys[j].late :: s'.standbys[j] == s.standbys[j])
  }

  /** Once the stop is raised, no failover begun before it goes any further. */
  lemma {:induction false} EarlySessionsStay(c: Config, run: seq<Action>, more: seq<Action>)
    requires Exec(c, run).late
    ensures EarlyStay(Exec(c, run), Exec(c, run + more))
  {
    if more == [] {
      assert run + more == run;
    } else {
      var init := more[..|more| - 1];
      EarlySessionsStay(c, run, init);
      assert (run + more)[..|run + more| - 1] == run + init;
      LateStep(c, Exec(c, run + init), more[|more| - 1]);
      EarlyTwice(Exec(c, run), Exec(c, run + init), Exec(c, run + more));
    }
  }

  lemma EarlyTwice(a: State, b: State, d: State)
    requires EarlyStay(a, b) && EarlyStay(b, d)
    ensures EarlyStay(a, d)
  {
  }

  lemma LateStep(c: Config, s: State, a: Action)
    requires s.late
    ensures EarlyStay(s, Step(c, s, a))
  {
  }

  /** F2: the key is released only where the policy says, exactly unless the executor takes the
      standby from a report that can be forged. */
  lemma ReleasesNamedExactly(c: Config)
    ensures ReleasesNamed(c) <==> !(c.standbyFromReport && CanForge(c))
  {
    if NamesStandby(c) {
      forall run, x: nat | x < |Exec(c, run).events| && Exec(c, run).events[x].EvReleased?
        ensures EventFits(c, Exec(c, run), x)
      {
        EventsFit(c, run);
      }
    } else {
      var s, x := ReleaseToImpostor(c);
      var run :| s == Exec(c, run);
      assert EvPolicyNames(W(PolicySerial), W(MeasBad)) !in s.events[..x];
      assert Exec(c, run).events[x].EvReleased?;
    }
  }

  /** F3 and F4: the trigger and the generation are the sentinel's own, exactly unless its seed
      leaked and the chip's quote over a record is not asked for, or is the attacker's to get. */
  lemma SentinelExactly(c: Config)
    ensures TriggersReported(c) <==> !CanForge(c)
    ensures ChoicesSealed(c) <==> !CanForge(c)
  {
    if !CanForge(c) {
      forall run, x: nat | x < |Exec(c, run).events| && Exec(c, run).events[x].EvDecided?
        ensures EvReported(Exec(c, run).events[x].generation) in Exec(c, run).events[..x]
      {
        EventsFit(c, run);
        assert EventFits(c, Exec(c, run), x);
      }
      forall run, x: nat | x < |Exec(c, run).events| && Exec(c, run).events[x].EvChosen?
        ensures EvSealed(Exec(c, run).events[x].generation) in Exec(c, run).events[..x]
      {
        EventsFit(c, run);
        assert EventFits(c, Exec(c, run), x);
      }
    } else {
      var s := DecideOnForgery(c);
      var run :| s == Exec(c, run);
      assert Exec(c, run).events[2].EvDecided? && Exec(c, run).events[3].EvChosen?;
    }
  }

  datatype Row = Row(g: bool, f1: bool, f2: bool, f3: bool, f4: bool, f5: bool, p: bool)

  ghost function RowOf(c: Config): Row {
    Row(KeySecret(c), DecisionsUnderPolicy(c), ReleasesNamed(c), TriggersReported(c), ChoicesSealed(c),
        OpeningsDecided(c), StopIsFinal(c))
  }

  lemma RowExactly(c: Config)
    ensures RowOf(c) == Row(KeepsKey(c), true, NamesStandby(c), !CanForge(c), !CanForge(c), true, true)
  {
    SecrecyExactly(c);
    AlwaysHold(c);
    ReleasesNamedExactly(c);
    SentinelExactly(c);
  }

  /** The six recorded rows; the models of the compromised primary have no phase 1, so their P,
      vacuous there, is proved here with one. */
  lemma RecordedTable()
    ensures RowOf(BASE) == Row(true, true, true, true, true, true, true)
    ensures RowOf(SEED_LEAKED) == Row(true, true, true, true, true, true, true)
    ensures RowOf(SEED_LEAKED_NO_PIN) == Row(true, true, true, false, false, true, true)
    ensures RowOf(PRIMARY_COMPROMISED) == Row(true, true, true, false, false, true, true)
    ensures RowOf(WORM) == Row(false, true, false, false, false, true, true)
    ensures RowOf(CHIP_KEY_LEAKED) == Row(false, true, true, true, true, true, true)
  {
    RowExactly(BASE);
    RowExactly(SEED_LEAKED);
    RowExactly(SEED_LEAKED_NO_PIN);
    RowExactly(PRIMARY_COMPROMISED);
    RowExactly(WORM);
    RowExactly(CHIP_KEY_LEAKED);
  }
}
