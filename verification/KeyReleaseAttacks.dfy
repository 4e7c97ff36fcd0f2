/** The attack runs: for each query, what happens when one of the protections it rests on is
    missing, whatever the other choices of the configuration are. */
module KeyReleaseAttacks {
  import opened Terms
  import opened Attacker
  import opened KeyRelease

  ghost predicate Reachable(c: Config, s: State) { exists run :: s == Exec(c, run) }

  lemma Start(c: Config) returns (s: State)
    ensures s == Init(c) && Reachable(c, s)
  {
    s := Init(c);
    assert s == Exec(c, []);
  }

  lemma Take(c: Config, s: State, a: Action) returns (s': State)
    requires Reachable(c, s) && Enabled(c, s, a)
    ensures s' == Apply(c, s, a) && Reachable(c, s')
  {
    var run :| s == Exec(c, run);
    s' := Apply(c, s, a);
    assert (run + [a])[..|run|] == run;
    assert s' == Exec(c, run + [a]);
  }

  /** s' is s with the attacker knowing more. */
  ghost predicate Learns(s: State, s': State) {
    s.known <= s'.known && s' == s.(known := s'.known)
  }

  lemma Learn(c: Config, s: State, d: Deduction) returns (s': State)
    requires Reachable(c, s) && CanDeduce(s.known, d)
    ensures Reachable(c, s') && s' == s.(known := s.known + {Deduced(d)})
  {
    s' := Take(c, s, Think(d));
  }

  lemma {:induction false} LearnAll(c: Config, s: State, ds: seq<Deduction>) returns (s': State)
    requires Reachable(c, s)
    ensures Reachable(c, s') && s' == s.(known := Derive(s.known, ds))
  {
    s' := s;
    if ds != [] {
      s' := LearnAll(c, s, ds[..|ds| - 1]);
      if CanDeduce(s'.known, ds[|ds| - 1]) { s' := Learn(c, s', ds[|ds| - 1]); }
    }
  }

  lemma Build(c: Config, s: State, t: Term) returns (s': State)
    requires Reachable(c, s) && Buildable(s.known, t)
    ensures Reachable(c, s') && Learns(s, s') && t in s'.known
  {
    var ds := DeduceBuildable(s.known, t);
    s' := LearnAll(c, s, ds);
  }

  // ----- The honest exchange, which the attacker relays -----

  function RequestOf(i: nat): Term { Sign(RequestBody(i), AUTHORITY) }

  function AnswerOf(c: Config, j: nat, nonce: Term): Term {
    Tuple([W(SuiteStrong), Pk2b(Pk(Recipient(c, j))), Sign(QuoteBody(c, j, nonce), CHIP)])
  }

  function TokenOf(i: nat, suite: Term, pkh: Term): Term { Sign(TokenBody(i, suite, pkh), AUTHORITY) }

  lemma Ask(c: Config, s: State) returns (s': State)
    requires Reachable(c, s)
    ensures Reachable(c, s') && s.known <= s'.known && RequestOf(|s.sources|) in s'.known
    ensures s' == s.(known := s'.known, signed := s'.signed, sources := s.sources + [Asked(s.late)])
  {
    s' := Take(c, s, StartSource);
  }

  lemma Answer(c: Config, s: State, i: nat) returns (s': State)
    requires Reachable(c, s) && RequestOf(i) in s.known
    ensures Reachable(c, s') && s.known <= s'.known && AnswerOf(c, |s.dests|, Name(Nonce(i))) in s'.known
    ensures s' == s.(known := s'.known, signed := s'.signed,
                     dests := s.dests + [Answered(s.late, Name(RequestId(i)), Name(DecisionId(i)),
                                                  Name(Nonce(i)), |s.events|)],
                     events := s.events + [EvGenerated(|s.dests|, Pk(Recipient(c, |s.dests|)), Name(Nonce(i)))])
  {
    s' := Take(c, s, StartDest(Name(RequestId(i)), Name(DecisionId(i)), Name(Nonce(i)), W(Kind)));
  }

  function ReleaseEvents(i: nat, late: bool, pkh: Term): seq<Event> {
    [EvAuthorized(i, Name(DecisionId(i)), W(MeasOk), pkh), EvAuthorizedIn(i, late),
     EvReleased(i, Name(TokenId(i)), Name(DecisionId(i)), DEK)]
  }

  /** The source releases on an answer the attacker hands it, with the list it hands it. */
  lemma ReleaseOn(c: Config, s: State, i: nat, suite: Term, pkh: Term, serial: Term) returns (s': State)
    requires Reachable(c, s) && i < |s.sources| && s.sources[i] == Asked(s.late) && CanWrap(suite)
    requires Tuple([suite, Pk2b(pkh),
                    Sign(Tuple([W(MeasOk), Challenge(c, suite, Pk2b(pkh), Name(Nonce(i)))]), CHIP)]) in s.known
    requires StopList(serial, W(NoStop)) in s.known
    requires c.refusesRollback ==> serial == SerialOnRecord(s.late)
    ensures Reachable(c, s') && s.known <= s'.known && TokenOf(i, suite, pkh) in s'.known
    ensures s' == s.(known := s'.known, signed := s'.signed,
                     sources := s.sources[i := Sent(s.late, suite, pkh, |s.events|)],
                     events := s.events + ReleaseEvents(i, s.late, pkh))
  {
    s' := Take(c, s, Release(i, suite, pkh, W(MeasOk),
                             Challenge(c, suite, Pk2b(pkh), Name(Nonce(i))), serial, W(NoStop)));
  }

  function ReceiptOf(c: Config, i: nat): Term {
    Receipt(c, W(KeyId1), Name(DecisionId(i)), Name(RequestId(i)), Name(TokenId(i)))
  }

  /** The destination's session j, which took request i, opens the token the source sent. */
  lemma RestoreHonestly(c: Config, s: State, i: nat, j: nat) returns (s': State)
    requires Reachable(c, s) && j < |s.dests| && s.dests[j].Answered? && s.dests[j].late == s.late
    requires s.dests[j].decid == Name(DecisionId(i)) && s.dests[j].reqid == Name(RequestId(i))
    requires TokenOf(i, W(SuiteStrong), Pk(Recipient(c, j))) in s.known
    ensures Reachable(c, s') && s.known <= s'.known
    ensures |s'.dests| == |s.dests| && (forall k | 0 <= k < |s.dests| && k != j :: s'.dests[k] == s.dests[k])
    ensures s' == s.(known := s'.known, signed := s'.signed, dests := s'.dests,
                     events := s.events + [EvOpened(j, Name(DecisionId(i)), DEK),
                                           EvRestored(j, Name(DecisionId(i)), W(KeyId1), W(MeasOk))])
    ensures Tuple([ReceiptOf(c, i), Sign(ReceiptQuoteBody(ReceiptOf(c, i)), CHIP)]) in s'.known
  {
    s' := Take(c, s, Restore(j, Name(TokenId(i)), W(MeasOk), W(KeyId1), DEK));
  }

  /** The attacker reads one field of a message signed by the authority. */
  lemma ReadField(c: Config, s: State, body: seq<Term>, n: nat) returns (s': State)
    requires Reachable(c, s) && Sign(Tuple(body), AUTHORITY) in s.known && Pk(AUTHORITY) in s.known && n < |body|
    ensures Reachable(c, s') && Learns(s, s') && body[n] in s'.known
  {
    s' := Learn(c, s, ReadSigned(Tuple(body), AUTHORITY));
    s' := Learn(c, s', ReadItem(body, n));
  }

  /** The operator's first list is there for the attacker to hand over. */
  lemma {:induction false} ListKnown(c: Config, run: seq<Action>)
    ensures StopList(W(Serial0), W(NoStop)) in Exec(c, run).known
  {
    if run != [] { ListKnown(c, run[..|run| - 1]); }
  }

  /** What an exchange of the source's i-th release and the destination's j-th handshake adds. */
  function Exchanged(c: Config, i: nat, j: nat): seq<Event> {
    [EvGenerated(j, Pk(Recipient(c, j)), Name(Nonce(i)))]
    + ReleaseEvents(i, false, Pk(Recipient(c, j)))
    + [EvOpened(j, Name(DecisionId(i)), DEK), EvRestored(j, Name(DecisionId(i)), W(KeyId1), W(MeasOk))]
  }

  /** A next release, restored by the destination it is for. */
  lemma RestoreNext(c: Config, s: State) returns (s': State)
    requires Reachable(c, s) && !s.late && StopList(W(Serial0), W(NoStop)) in s.known
    ensures Reachable(c, s') && s.known <= s'.known && !s'.late
    ensures s'.events == s.events + Exchanged(c, |s.sources|, |s.dests|) && |s'.dests| == |s.dests| + 1
    ensures |s'.sources| == |s.sources| + 1
    ensures s'.sources[|s.sources|].Sent? && !s'.sources[|s.sources|].late
    ensures var receipt := ReceiptOf(c, |s.sources|);
            Tuple([receipt, Sign(ReceiptQuoteBody(receipt), CHIP)]) in s'.known
  {
    var i, j := |s.sources|, |s.dests|;
    s' := Ask(c, s);
    s' := Answer(c, s', i);
    s' := ReleaseOn(c, s', i, W(SuiteStrong), Pk(Recipient(c, j)), W(Serial0));
    s' := RestoreHonestly(c, s', i, j);
  }

  /** In every configuration, and whatever ran before: while the stop is not raised a next release can be
      asked for, answered, authorized, opened, restored and confirmed. */
  lemma ExchangeCompletes(c: Config, s: State) returns (s': State)
    requires Reachable(c, s) && !s.late
    ensures Reachable(c, s')
    ensures s'.events == s.events + Exchanged(c, |s.sources|, |s.dests|)
                         + [EvConfirmed(|s.sources|, Name(DecisionId(|s.sources|)), W(KeyId1), W(MeasOk))]
  {
    var run :| s == Exec(c, run);
    ListKnown(c, run);
    s' := RestoreNext(c, s);
    s' := Take(c, s', Confirm(|s.sources|, ReceiptOf(c, |s.sources|)));
  }

  // ----- S and A2: the released key, and who it is released to -----

  const EVE := Name(Invented(0))

  /** The attacker opens a token released to its own key. */
  lemma OpenAsEve(c: Config, s: State, i: nat) returns (s': State)
    requires Reachable(c, s) && EVE in s.known && Pk(AUTHORITY) in s.known
    requires TokenOf(i, W(SuiteStrong), Pk(EVE)) in s.known
    ensures Reachable(c, s') && DEK in s'.known && s'.events == s.events
  {
    var body := TokenBody(i, W(SuiteStrong), Pk(EVE)).items;
    s' := ReadField(c, s, body, 6);
    s' := ReadField(c, s', body, 7);
    s' := Learn(c, s', OpenHpke(DEK, EVE, Aad(Name(TokenId(i)), W(MeasOk), W(KeyId1))));
  }

  function OwnQuote(c: Config): Term {
    Sign(Tuple([W(MeasOk), Challenge(c, W(SuiteStrong), Pk2b(Pk(EVE)), Name(Nonce(0)))]), CHIP)
  }

  /** The listed chip's quote over the attacker's key: the destination's own, where the challenge does
      not name the key, or one made with the chips' key. */
  lemma QuoteOwnKey(c: Config, s: State) returns (s': State)
    requires c.chipKeyLeaked || c.binding.NonceAlone?
    requires Reachable(c, s) && EVE in s.known && Pk(EVE) in s.known && Pk(AUTHORITY) in s.known
    requires RequestOf(0) in s.known && AnswerOf(c, 0, Name(Nonce(0))) in s.known
             && (c.chipKeyLeaked ==> CHIP in s.known)
    ensures Reachable(c, s') && Learns(s, s') && OwnQuote(c) in s'.known
  {
    var pkb := Pk2b(Pk(EVE));
    var rd := Challenge(c, W(SuiteStrong), pkb, Name(Nonce(0)));
    if c.chipKeyLeaked {
      s' := ReadField(c, s, RequestBody(0).items, 2);
      assert Buildable(s'.known, pkb);
      assert Buildable(s'.known, rd.m);
      assert Buildable(s'.known, Tuple([W(MeasOk), rd]));
      s' := Build(c, s', OwnQuote(c));
    } else {
      s' := Learn(c, s, ReadItem(AnswerOf(c, 0, Name(Nonce(0))).items, 2));
    }
  }

  /** Without the chip's key or the key binding to stop it, the attacker puts its own key in the
      answer: the source authorizes a key the destination never generated. */
  lemma StealByOwnKey(c: Config) returns (s: State)
    requires c.chipKeyLeaked || c.binding.NonceAlone?
    ensures Reachable(c, s) && DEK in s.known
    ensures s.events == [EvGenerated(0, Pk(Recipient(c, 0)), Name(Nonce(0)))] + ReleaseEvents(0, false, Pk(EVE))
  {
    s := Start(c);
    s := Ask(c, s);
    s := Answer(c, s, 0);
    s := Learn(c, s, Invent(Invented(0)));
    s := Learn(c, s, MakePk(EVE));
    s := QuoteOwnKey(c, s);
    assert Buildable(s.known, Pk2b(Pk(EVE)));
    s := Build(c, s, Tuple([W(SuiteStrong), Pk2b(Pk(EVE)), OwnQuote(c)]));
    s := ReleaseOn(c, s, 0, W(SuiteStrong), Pk(EVE), W(Serial0));
    s := OpenAsEve(c, s, 0);
  }

  /** Without the suite in the challenge, the attacker names a suite it can open. */
  lemma StealByWeakSuite(c: Config) returns (s: State)
    requires c.binding.KeyOnly?
    ensures Reachable(c, s) && DEK in s.known
  {
    var pkh := Pk(Recipient(c, 0));
    s := Start(c);
    s := Ask(c, s);
    s := Answer(c, s, 0);
    var items := AnswerOf(c, 0, Name(Nonce(0))).items;
    s := Learn(c, s, ReadItem(items, 1));
    s := Learn(c, s, ReadItem(items, 2));
    s := Build(c, s, Tuple([W(SuiteWeak), items[1], items[2]]));
    s := ReleaseOn(c, s, 0, W(SuiteWeak), pkh, W(Serial0));
    var body := TokenBody(0, W(SuiteWeak), pkh).items;
    s := ReadField(c, s, body, 6);
    s := Learn(c, s, BreakWeak(DEK, pkh, Aad(Name(TokenId(0)), W(MeasOk), W(KeyId1))));
  }

  /** With one recipient key for every handshake, its later leak opens an earlier release. */
  lemma StealByLaterLeak(c: Config) returns (s: State)
    requires !c.freshKeys
    ensures Reachable(c, s) && DEK in s.known
  {
    var hk := Name(SharedRecipientKey);
    s := Start(c);
    s := Ask(c, s);
    s := Answer(c, s, 0);
    s := ReleaseOn(c, s, 0, W(SuiteStrong), Pk(hk), W(Serial0));
    s := Take(c, s, RaiseStop);
    var body := TokenBody(0, W(SuiteStrong), Pk(hk)).items;
    s := ReadField(c, s, body, 6);
    s := ReadField(c, s, body, 7);
    s := Learn(c, s, OpenHpke(DEK, hk, Aad(Name(TokenId(0)), W(MeasOk), W(KeyId1))));
  }

  // ----- A1 and A3: what the destination opens -----

  /** With the authority's key, the attacker opens a handshake of its own. */
  lemma ForgeRequest(c: Config) returns (s: State)
    requires c.authorityKeyLeaked
    ensures Reachable(c, s) && AUTHORITY in s.known && Pk(Recipient(c, 0)) in s.known && !s.late
    ensures s.dests == [Answered(false, EVE, EVE, EVE, 0)] && s.events == [EvGenerated(0, Pk(Recipient(c, 0)), EVE)]
  {
    s := Start(c);
    assert Buildable(s.known, Tuple([EVE, EVE, EVE, EVE]));
    s := Build(c, s, Sign(Tuple([EVE, EVE, EVE, EVE]), AUTHORITY));
    s := Take(c, s, StartDest(EVE, EVE, EVE, EVE));
    s := Learn(c, s, ReadItem(AnswerOf(c, 0, EVE).items, 1));
    s := Learn(c, s, ReadKey(Pk(Recipient(c, 0))));
  }

  /** ... and has the destination open a key of its own choosing. */
  lemma OpenForgedToken(c: Config) returns (s: State)
    requires c.authorityKeyLeaked
    ensures Reachable(c, s) && |s.events| == 3 && s.events[0].EvGenerated?
    ensures s.events[1] == EvOpened(0, EVE, EVE) && s.events[2].EvRestored?
  {
    s := ForgeRequest(c);
    var aad := Aad(EVE, EVE, EVE);
    var ct := Hpke(EVE, Pk(Recipient(c, 0)), aad);
    var body := Tuple([EVE, EVE, EVE, EVE, EVE, W(SuiteStrong), ct, aad]);
    s := Learn(c, s, Invent(Invented(0)));
    assert Buildable(s.known, aad.m);
    s := Build(c, s, aad);
    s := Learn(c, s, MakeHpke(EVE, Pk(Recipient(c, 0)), aad));
    assert Buildable(s.known, body);
    s := Build(c, s, Sign(body, AUTHORITY));
    assert TokenFor(c, s, 0, EVE, EVE, EVE, EVE) == Sign(body, AUTHORITY);
    s := Take(c, s, Restore(0, EVE, EVE, EVE, EVE));
  }

  /** With one recipient key, two sessions open one token. */
  lemma OpenTwice(c: Config) returns (s: State)
    requires !c.freshKeys
    ensures Reachable(c, s) && |s.events| == 9
    ensures s.events[5].EvOpened? && s.events[7].EvOpened?
    ensures forall x | 0 <= x < 9 && s.events[x].EvReleased? :: x == 4
  {
    var pkh := Pk(Name(SharedRecipientKey));
    s := Start(c);
    s := Ask(c, s);
    s := Answer(c, s, 0);
    s := Answer(c, s, 0);
    s := ReleaseOn(c, s, 0, W(SuiteStrong), pkh, W(Serial0));
    s := RestoreHonestly(c, s, 0, 0);
    s := RestoreHonestly(c, s, 0, 1);
  }

  // ----- P: the stop -----

  /** Without the no-rollback rule, the list signed before the stop lifts it. */
  lemma AuthorizeAfterStop(c: Config) returns (s: State)
    requires !c.refusesRollback
    ensures Reachable(c, s) && |s.events| == 4 && s.events[2] == EvAuthorizedIn(0, true)
  {
    s := Start(c);
    s := Take(c, s, RaiseStop);
    s := Ask(c, s);
    s := Answer(c, s, 0);
    s := ReleaseOn(c, s, 0, W(SuiteStrong), Pk(Recipient(c, 0)), W(Serial0));
  }

  /** The sessions begun before the stop are in s' as they are in s. */
  ghost predicate EarlyStay(s: State, s': State) {
    && s'.late && |s.sources| <= |s'.sources| && |s.dests| <= |s'.dests|
    && (forall i | 0 <= i < |s.sources| && !s.sources[i].late :: s'.sources[i] == s.sources[i])
    && (forall j | 0 <= j < |s.dests| && !s.dests[j].late :: s'.dests[j] == s.dests[j])
  }

  /** Once the stop is on the record, no session begun before it goes any further. */
  lemma {:induction false} EarlySessionsStay(c: Config, run: seq<Action>, more: seq<Action>)
    requires Exec(c, run).late
    ensures EarlyStay(Exec(c, run), Exec(c, run + more))
  {
    if more == [] {
      assert run + more == run;
    } else {
      var init := more[..|more| - 1];
      EarlySessionsStay(c, run, init);
      assert (run + more)[..|run + more| - 1] == run + init;
      LateStep(c, Exec(c, run + init), more[|more| - 1]);
      EarlyTwice(Exec(c, run), Exec(c, run + init), Exec(c, run + more));
    }
  }

  lemma EarlyTwice(a: State, b: State, d: State)
    requires EarlyStay(a, b) && EarlyStay(b, d)
    ensures EarlyStay(a, d)
  {
  }

  lemma LateStep(c: Config, s: State, a: Action)
    requires s.late
    ensures EarlyStay(s, Step(c, s, a))
  {
  }

  // ----- R: the receipt -----

  /** One release, restored by the destination it was for. */
  lemma RestoreOnce(c: Config) returns (s: State)
    ensures Reachable(c, s) && |s.sources| == 1 && |s.dests| == 1 && !s.late && |s.events| == 6
    ensures Tuple([ReceiptOf(c, 0), Sign(ReceiptQuoteBody(ReceiptOf(c, 0)), CHIP)]) in s.known
    ensures StopList(W(Serial0), W(NoStop)) in s.known
    ensures forall x | 0 <= x < 6 && s.events[x].EvRestored? :: s.events[x].decision == Name(DecisionId(0))
  {
    s := Start(c);
    s := RestoreNext(c, s);
  }

  /** A receipt that does not name the decision confirms a later one. */
  lemma ConfirmWithOldReceipt(c: Config) returns (s: State)
    requires !c.receiptNamesDecision
    ensures Reachable(c, s) && |s.events| == 11
    ensures s.events[10] == EvConfirmed(1, Name(DecisionId(1)), W(KeyId1), W(MeasOk))
    ensures forall x | 0 <= x < 11 && s.events[x].EvRestored? :: s.events[x].decision == Name(DecisionId(0))
  {
    s := RestoreOnce(c);
    s := Ask(c, s);
    s := Answer(c, s, 1);
    s := ReleaseOn(c, s, 1, W(SuiteStrong), Pk(Recipient(c, 1)), W(Serial0));
    s := Take(c, s, Confirm(1, Tuple([W(KeyId1), W(MeasOk)])));
  }

  function ForgedReceipt(c: Config): Term { Receipt(c, W(KeyId1), Name(DecisionId(0)), EVE, EVE) }

  /** A receipt for the decision, signed with the chips' key. */
  lemma ForgeReceipt(c: Config, s: State) returns (s': State)
    requires Reachable(c, s) && CHIP in s.known && Pk(AUTHORITY) in s.known && RequestOf(0) in s.known
    ensures Reachable(c, s') && Learns(s, s')
    ensures Tuple([ForgedReceipt(c), Sign(ReceiptQuoteBody(ForgedReceipt(c)), CHIP)]) in s'.known
  {
    s' := ReadField(c, s, RequestBody(0).items, 1);
    var receipt := ForgedReceipt(c);
    assert Buildable(s'.known, receipt);
    assert Buildable(s'.known, Tuple([W(LabelReceipt), receipt]));
    assert Buildable(s'.known, ReceiptQuoteBody(receipt));
    assert Buildable(s'.known, Sign(ReceiptQuoteBody(receipt), CHIP));
    s' := Build(c, s', Tuple([receipt, Sign(ReceiptQuoteBody(receipt), CHIP)]));
  }

  /** With the chips' key, the attacker signs the receipt itself. */
  lemma ConfirmWithForgedReceipt(c: Config) returns (s: State)
    requires c.chipKeyLeaked
    ensures Reachable(c, s) && |s.events| == 5 && s.events[4].EvConfirmed?
    ensures forall x | 0 <= x < 5 :: !s.events[x].EvRestored?
  {
    s := Start(c);
    s := Ask(c, s);
    s := Answer(c, s, 0);
    s := ReleaseOn(c, s, 0, W(SuiteStrong), Pk(Recipient(c, 0)), W(Serial0));
    s := ForgeReceipt(c, s);
    s := Take(c, s, Confirm(0, ForgedReceipt(c)));
  }
}
