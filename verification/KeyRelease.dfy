/** The cross-cloud key release as a step system with a network attacker.

    One configuration per choice the model generator makes: which fields the chip's challenge
    covers, whether an older stop list is refused, whether the receipt names the decision, whether
    a recipient key is made per handshake, and which long-term key has leaked. */
module KeyRelease {
  import opened Terms

  /** What the chip's challenge over a recipient key covers, beside the nonce. */
  datatype Binding = KeyAndSuite | KeyOnly | NonceAlone

  datatype Config = Config(
    binding: Binding,
    refusesRollback: bool,
    receiptNamesDecision: bool,
    freshKeys: bool,
    chipKeyLeaked: bool,
    authorityKeyLeaked: bool)

  const BASE := Config(KeyAndSuite, true, true, true, false, false)
  const NO_BIND := BASE.(binding := NonceAlone)
  const NO_SUITE_BIND := BASE.(binding := KeyOnly)
  const SHARED_KEY := BASE.(freshKeys := false)
  const STOP_ROLLBACK := BASE.(refusesRollback := false)
  const RECEIPT_NO_DECISION := BASE.(receiptNamesDecision := false)
  const CHIP_KEY_LEAKED := BASE.(chipKeyLeaked := true)
  const AUTHORITY_KEY_LEAKED := BASE.(authorityKeyLeaked := true)

  const CHIP := Name(ChipKey)
  const AUTHORITY := Name(AuthorityKey)
  const OPERATOR := Name(OperatorKey)
  const DEK := Name(GenomeKey)

  function Challenge(c: Config, suite: Term, pkb: Term, nonce: Term): Term {
    match c.binding
    case KeyAndSuite => H(Tuple([W(LabelBind), suite, pkb, nonce]))
    case KeyOnly => H(Tuple([W(LabelBind), pkb, nonce]))
    case NonceAlone => H(Tuple([W(LabelBind), nonce]))
  }

  function Recipient(c: Config, j: nat): Term {
    if c.freshKeys then Name(RecipientKey(j)) else Name(SharedRecipientKey)
  }

  // ----- Sessions, events, state -----

  /** One release at the source authority. at, and doneAt, are where its Authorized and Confirmed
      events stand in the trace. */
  datatype Source =
    | Asked(late: bool)
    | Halted(late: bool, at: nat)
    | Sent(late: bool, suite: Term, pkh: Term, at: nat)
    | Done(late: bool, suite: Term, pkh: Term, at: nat, doneAt: nat)
  {
    predicate HasReleased() { Sent? || Done? }
  }

  /** One handshake at the destination. */
  datatype Dest =
    | Answered(late: bool, reqid: Term, decid: Term, nonce: Term, at: nat)
    | Restored(late: bool, reqid: Term, decid: Term, nonce: Term, at: nat, receipt: Term, restoredAt: nat)

  /** The events of the models, each with the session that raised it. */
  datatype Event =
    | EvGenerated(who: nat, key: Term, nonce: Term)
    | EvAuthorized(who: nat, decision: Term, measurement: Term, key: Term)
    | EvAuthorizedIn(who: nat, late: bool)
    | EvReleased(who: nat, token: Term, decision: Term, secret: Term)
    | EvOpened(who: nat, decision: Term, secret: Term)
    | EvRestored(who: nat, decision: Term, keyId: Term, measurement: Term)
    | EvConfirmed(who: nat, decision: Term, keyId: Term, measurement: Term)

  /** late says that the operator's stop is on the record: phase 1. */
  datatype State = State(
    known: set<Term>,
    signed: set<Term>,
    late: bool,
    sources: seq<Source>,
    dests: seq<Dest>,
    events: seq<Event>)

  // ----- Messages -----

  function RequestBody(i: nat): Term {
    Tuple([Name(RequestId(i)), Name(DecisionId(i)), Name(Nonce(i)), W(Kind)])
  }

  function Aad(tokenid: Term, m: Term, kid: Term): Term { H(Tuple([tokenid, m, kid])) }

  /** wrap: defined for the two suites only. */
  function Wrap(suite: Term, m: Term, p: Term, aad: Term): Term {
    if suite == W(SuiteStrong) then Hpke(m, p, aad) else HpkeWeak(m, p, aad)
  }

  predicate CanWrap(suite: Term) { suite == W(SuiteStrong) || suite == W(SuiteWeak) }

  function TokenBody(i: nat, suite: Term, pkh: Term): Term {
    var aad := Aad(Name(TokenId(i)), W(MeasOk), W(KeyId1));
    Tuple([Name(TokenId(i)), Name(DecisionId(i)), Name(RequestId(i)), W(MeasOk), W(KeyId1), suite,
           Wrap(suite, DEK, pkh, aad), aad])
  }

  function QuoteBody(c: Config, j: nat, nonce: Term): Term {
    Tuple([W(MeasOk), Challenge(c, W(SuiteStrong), Pk2b(Pk(Recipient(c, j))), nonce)])
  }

  function Receipt(c: Config, kid: Term, decid: Term, reqid: Term, tokenid: Term): Term {
    if c.receiptNamesDecision then Tuple([kid, decid, reqid, tokenid, W(MeasOk)])
    else Tuple([kid, W(MeasOk)])
  }

  function ReceiptQuoteBody(receipt: Term): Term {
    Tuple([W(MeasOk), H(Tuple([W(LabelReceipt), receipt]))])
  }

  predicate ReceiptAccepted(c: Config, i: nat, receipt: Term) {
    && receipt.Tuple?
    && if c.receiptNamesDecision then
         && |receipt.items| == 5
         && receipt.items[1] == Name(DecisionId(i))
         && receipt.items[0] == W(KeyId1)
         && receipt.items[4] == W(MeasOk)
       else
         receipt == Tuple([W(KeyId1), W(MeasOk)])
  }

  function StopList(serial: Term, flag: Term): Term { Sign(Tuple([serial, flag]), OPERATOR) }

  /** The newest stop-list serial on the source's record. */
  function SerialOnRecord(late: bool): Term { if late then W(Serial1) else W(Serial0) }

  // ----- Steps -----

  datatype Action =
    | Think(d: Deduction)
    | StartSource
    | Release(i: nat, suite: Term, pkh: Term, m: Term, rd: Term, serial: Term, flag: Term)
    | Confirm(i: nat, receipt: Term)
    | StartDest(reqid: Term, decid: Term, nonce: Term, kind: Term)
    | Restore(j: nat, tokenid: Term, m: Term, kid: Term, x: Term)
    | Impostor(chal: Term)
    | RaiseStop

  function Init(c: Config): State {
    var keys := {Pk(CHIP), Pk(AUTHORITY), Pk(OPERATOR)}
                + (if c.chipKeyLeaked then {CHIP} else {})
                + (if c.authorityKeyLeaked then {AUTHORITY} else {});
    var list := StopList(W(Serial0), W(NoStop));
    State(keys + {list}, {list}, false, [], [], [])
  }

  /** A token as the destination's session j reads it. */
  function TokenFor(c: Config, s: State, j: nat, tokenid: Term, m: Term, kid: Term, x: Term): Term
    requires j < |s.dests|
  {
    var aad := Aad(tokenid, m, kid);
    Sign(Tuple([tokenid, s.dests[j].decid, s.dests[j].reqid, m, kid, W(SuiteStrong),
                Hpke(x, Pk(Recipient(c, j)), aad), aad]), AUTHORITY)
  }

  predicate Enabled(c: Config, s: State, a: Action) {
    match a
    case Think(d) => CanDeduce(s.known, d)
    case StartSource => true
    case Release(i, suite, pkh, m, rd, serial, flag) =>
      && i < |s.sources| && s.sources[i] == Asked(s.late)
      && Tuple([suite, Pk2b(pkh), Sign(Tuple([m, rd]), CHIP)]) in s.known
      && rd == Challenge(c, suite, Pk2b(pkh), Name(Nonce(i)))
      && StopList(serial, flag) in s.known
      && (c.refusesRollback ==> serial == SerialOnRecord(s.late))
      && flag == W(NoStop)
      && m == W(MeasOk)
    case Confirm(i, receipt) =>
      && i < |s.sources| && s.sources[i].Sent? && s.sources[i].late == s.late
      && Tuple([receipt, Sign(ReceiptQuoteBody(receipt), CHIP)]) in s.known
      && ReceiptAccepted(c, i, receipt)
    case StartDest(reqid, decid, nonce, kind) =>
      Sign(Tuple([reqid, decid, nonce, kind]), AUTHORITY) in s.known
    case Restore(j, tokenid, m, kid, x) =>
      && j < |s.dests| && s.dests[j].Answered? && s.dests[j].late == s.late
      && TokenFor(c, s, j, tokenid, m, kid, x) in s.known
    case Impostor(chal) => chal in s.known
    case RaiseStop => !s.late
  }

  /** An honest party signs t and sends message, which holds it. */
  function Output(s: State, signature: Term, message: Term): State {
    s.(known := s.known + {message}, signed := s.signed + {signature})
  }

  function Apply(c: Config, s: State, a: Action): State
    requires Enabled(c, s, a)
  {
    match a
    case Think(d) => s.(known := s.known + {Deduced(d)})
    case StartSource =>
      var request := Sign(RequestBody(|s.sources|), AUTHORITY);
      Output(s.(sources := s.sources + [Asked(s.late)]), request, request)
    case Release(i, suite, pkh, m, rd, serial, flag) =>
      var authorized := [EvAuthorized(i, Name(DecisionId(i)), m, pkh), EvAuthorizedIn(i, s.late)];
      if CanWrap(suite) then
        var token := Sign(TokenBody(i, suite, pkh), AUTHORITY);
        var released := EvReleased(i, Name(TokenId(i)), Name(DecisionId(i)), DEK);
        Output(s.(sources := s.sources[i := Sent(s.late, suite, pkh, |s.events|)],
                  events := s.events + authorized + [released]), token, token)
      else
        s.(sources := s.sources[i := Halted(s.late, |s.events|)], events := s.events + authorized)
    case Confirm(i, receipt) =>
      var o := s.sources[i];
      s.(sources := s.sources[i := Done(o.late, o.suite, o.pkh, o.at, |s.events|)],
         events := s.events + [EvConfirmed(i, Name(DecisionId(i)), W(KeyId1), W(MeasOk))])
    case StartDest(reqid, decid, nonce, kind) =>
      var j := |s.dests|;
      var quote := Sign(QuoteBody(c, j, nonce), CHIP);
      Output(s.(dests := s.dests + [Answered(s.late, reqid, decid, nonce, |s.events|)],
                events := s.events + [EvGenerated(j, Pk(Recipient(c, j)), nonce)]),
             quote, Tuple([W(SuiteStrong), Pk2b(Pk(Recipient(c, j))), quote]))
    case Restore(j, tokenid, m, kid, x) =>
      var d := s.dests[j];
      var receipt := Receipt(c, kid, d.decid, d.reqid, tokenid);
      var quote := Sign(ReceiptQuoteBody(receipt), CHIP);
      Output(s.(dests := s.dests[j := Restored(d.late, d.reqid, d.decid, d.nonce, d.at, receipt, |s.events| + 1)],
                events := s.events + [EvOpened(j, d.decid, x), EvRestored(j, d.decid, kid, W(MeasOk))]),
             quote, Tuple([receipt, quote]))
    case Impostor(chal) =>
      var quote := Sign(Tuple([W(MeasBad), chal]), CHIP);
      Output(s, quote, quote)
    case RaiseStop =>
      var list := StopList(W(Serial1), W(StopAll));
      var s' := Output(s.(late := true), list, list);
      if c.freshKeys then s' else s'.(known := s'.known + {Name(SharedRecipientKey)})
  }

  /** A step that is not enabled changes nothing, so every sequence of actions is a run. */
  function Step(c: Config, s: State, a: Action): State {
    if Enabled(c, s, a) then Apply(c, s, a) else s
  }

  function Exec(c: Config, run: seq<Action>): State {
    if run == [] then Init(c) else Step(c, Exec(c, run[..|run| - 1]), run[|run| - 1])
  }
}
