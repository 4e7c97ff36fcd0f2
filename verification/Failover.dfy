/** The sentinel and the policy-driven failover as a step system with a network attacker, who also
    holds the outbox. One configuration per choice the model generator makes. */
module Failover {
  import opened Terms

  datatype Config = Config(
    seedLeaked: bool,          // the sentinel's signing key is the attacker's
    pinsChip: bool,            // the executor wants the primary chip's quote over every record
    primaryCompromised: bool,  // the primary's chip quotes whatever the attacker asks
    standbyFromReport: bool,   // the executor takes the standby from the report, not the policy
    chipKeyLeaked: bool)

  const BASE := Config(false, true, false, false, false)
  const SEED_LEAKED := BASE.(seedLeaked := true)
  const SEED_LEAKED_NO_PIN := SEED_LEAKED.(pinsChip := false)
  const PRIMARY_COMPROMISED := SEED_LEAKED.(primaryCompromised := true)
  const WORM := PRIMARY_COMPROMISED.(standbyFromReport := true)
  const CHIP_KEY_LEAKED := BASE.(chipKeyLeaked := true)

  const CHIP := Name(ChipKey)
  const AUTHORITY := Name(AuthorityKey)
  const OPERATOR := Name(OperatorKey)
  const SENTINEL := Name(SentinelKey)
  const ESCROW := Name(EscrowKey)
  const KG := Name(GenomeKey)

  /** One failover at the executor: want is the measurement it will release to, secret what it
      opened from escrow. */
  datatype Executor =
    | Stuck(late: bool)
    | Decided(late: bool, serial: Term, secret: Term, want: Term)
    | Sent(late: bool, serial: Term, secret: Term, want: Term, suite: Term, pkh: Term)

  datatype Standby =
    | Answered(late: bool, reqid: Term, decid: Term, nonce: Term)
    | Opened(late: bool, reqid: Term, decid: Term, nonce: Term)

  datatype Event =
    | EvPolicyIssued(serial: Term)
    | EvPolicyNames(serial: Term, measurement: Term)
    | EvSealed(generation: Term)
    | EvReported(generation: Term)
    | EvDecided(serial: Term, generation: Term)
    | EvChosen(generation: Term)
    | EvReleased(serial: Term, measurement: Term)
    | EvAuthorizedIn(late: bool)
    | EvOpened(serial: Term, secret: Term)

  datatype State = State(
    known: set<Term>,
    signed: set<Term>,
    late: bool,
    issued: bool,
    sealed: bool,
    reported: bool,
    executors: seq<Executor>,
    standbys: seq<Standby>,
    events: seq<Event>)

  // ----- Messages -----

  const POLICY_BODY := Tuple([W(PolicyTag), W(PolicySerial), Pk2b(Pk(SENTINEL)), W(MeasPrimary), W(MeasStandby)])
  const SEAL_BODY :=
    Tuple([W(SealTag), W(Generation1), H(W(BundleBytes)), Hpke(KG, Pk(ESCROW), W(Generation1)), W(Generation0)])
  const REPORT_BODY := Tuple([W(ReportTag), W(Generation1), W(MeasStandby)])

  /** The chip's challenge over a sentinel's record. */
  function RecordQuote(measurement: Term, record: Term): Term {
    Sign(Tuple([measurement, H(Tuple([W(LabelRecord), record]))]), CHIP)
  }

  function Challenge(suite: Term, pkb: Term, nonce: Term): Term { H(Tuple([W(LabelBind), suite, pkb, nonce])) }

  function RequestBody(i: nat): Term {
    Tuple([Name(RequestId(i)), Name(DecisionId(i)), Name(Nonce(i)), W(Kind)])
  }

  function Aad(tokenid: Term, m: Term, kid: Term): Term { H(Tuple([tokenid, m, kid])) }

  function TokenBody(i: nat, o: Executor): Term
    requires o.Sent?
  {
    var aad := Aad(Name(TokenId(i)), o.want, W(KeyId1));
    Tuple([Name(TokenId(i)), Name(DecisionId(i)), Name(RequestId(i)), o.want, W(KeyId1), o.suite,
           Hpke(o.secret, o.pkh, aad), aad, o.serial])
  }

  function StandbyKey(j: nat): Term { Name(RecipientKey(j)) }

  function StandbyQuoteBody(j: nat, nonce: Term): Term {
    Tuple([W(MeasStandby), Challenge(W(SuiteStrong), Pk2b(Pk(StandbyKey(j))), nonce)])
  }

  function StopList(serial: Term, flag: Term): Term { Sign(Tuple([serial, flag]), OPERATOR) }

  function SerialOnRecord(late: bool): Term { if late then W(Serial1) else W(Serial0) }

  // ----- Steps -----

  /** A policy, a trigger and a record as the executor reads them; a quote it does not check is
      whatever the attacker put there. */
  datatype Case = Case(
    serial: Term, key: Term, mp: Term, msb: Term,
    glast: Term, dsb: Term, reportQuote: Term,
    bundleHash: Term, envelope: Term, parent: Term, sealQuote: Term)
  {
    function Policy(): Term { Sign(Tuple([W(PolicyTag), serial, Pk2b(Pk(key)), mp, msb]), OPERATOR) }
    function Report(): Term { Tuple([W(ReportTag), glast, dsb]) }
    function Record(): Term { Tuple([W(SealTag), glast, bundleHash, envelope, parent]) }
    function ReportMessage(): Term { Tuple([Report(), Sign(Report(), key), reportQuote]) }
    function RecordMessage(): Term { Tuple([Record(), Sign(Record(), key), sealQuote]) }
  }

  datatype Action =
    | Think(d: Deduction)
    | IssuePolicy
    | SealGeneration
    | ReportCompromise
    | Decide(k: Case)
    | Release(i: nat, suite: Term, pkh: Term, m: Term, rd: Term, serial: Term, flag: Term)
    | StartStandby(reqid: Term, decid: Term, nonce: Term, kind: Term)
    | Open(j: nat, tokenid: Term, m: Term, kid: Term, x: Term, serial: Term)
    | Impostor(chal: Term)
    | PrimaryChip(chal: Term)
    | RaiseStop

  function Init(c: Config): State {
    var keys := {Pk(CHIP), Pk(OPERATOR), Pk(SENTINEL), Pk(ESCROW), Pk(AUTHORITY)}
                + (if c.seedLeaked then {SENTINEL} else {})
                + (if c.chipKeyLeaked then {CHIP} else {});
    var list := StopList(W(Serial0), W(NoStop));
    State(keys + {list}, {list}, false, false, false, false, [], [], [])
  }

  function TokenFor(s: State, j: nat, tokenid: Term, m: Term, kid: Term, x: Term, serial: Term): Term
    requires j < |s.standbys|
  {
    var aad := Aad(tokenid, m, kid);
    Sign(Tuple([tokenid, s.standbys[j].decid, s.standbys[j].reqid, m, kid, W(SuiteStrong),
                Hpke(x, Pk(StandbyKey(j)), aad), aad, serial]), AUTHORITY)
  }

  predicate Enabled(c: Config, s: State, a: Action) {
    match a
    case Think(d) => CanDeduce(s.known, d)
    case IssuePolicy => !s.issued && !s.late
    case SealGeneration => !s.sealed && !s.late
    case ReportCompromise => s.sealed && !s.reported && !s.late
    case Decide(k) =>
      && k.Policy() in s.known
      && k.ReportMessage() in s.known
      && (c.pinsChip ==> k.reportQuote == RecordQuote(k.mp, k.Report()))
      && k.RecordMessage() in s.known
      && (c.pinsChip ==> k.sealQuote == RecordQuote(k.mp, k.Record()))
      && k.bundleHash == H(W(BundleBytes))
    case Release(i, suite, pkh, m, rd, serial, flag) =>
      && i < |s.executors| && s.executors[i].Decided? && s.executors[i].late == s.late
      && Tuple([suite, Pk2b(pkh), Sign(Tuple([m, rd]), CHIP)]) in s.known
      && rd == Challenge(suite, Pk2b(pkh), Name(Nonce(i)))
      && StopList(serial, flag) in s.known
      && serial == SerialOnRecord(s.late)
      && flag == W(NoStop)
      && m == s.executors[i].want
    case StartStandby(reqid, decid, nonce, kind) =>
      Sign(Tuple([reqid, decid, nonce, kind]), AUTHORITY) in s.known
    case Open(j, tokenid, m, kid, x, serial) =>
      && j < |s.standbys| && s.standbys[j].Answered? && s.standbys[j].late == s.late
      && TokenFor(s, j, tokenid, m, kid, x, serial) in s.known
    case Impostor(chal) => chal in s.known
    case PrimaryChip(chal) => c.primaryCompromised && chal in s.known
    case RaiseStop => !s.late
  }

  function Output(s: State, signatures: set<Term>, message: Term): State {
    s.(known := s.known + {message}, signed := s.signed + signatures)
  }

  /** A sentinel's record as it goes to the outbox: signed, and quoted by the primary's chip. */
  function Write(s: State, record: Term): State {
    var signature, quote := Sign(record, SENTINEL), RecordQuote(W(MeasPrimary), record);
    Output(s, {signature, quote}, Tuple([record, signature, quote]))
  }

  function Apply(c: Config, s: State, a: Action): State
    requires Enabled(c, s, a)
  {
    match a
    case Think(d) => s.(known := s.known + {Deduced(d)})
    case IssuePolicy =>
      var policy := Sign(POLICY_BODY, OPERATOR);
      Output(s.(issued := true,
                events := s.events + [EvPolicyIssued(W(PolicySerial)), EvPolicyNames(W(PolicySerial), W(MeasStandby))]),
             {policy}, policy)
    case SealGeneration => Write(s.(sealed := true, events := s.events + [EvSealed(W(Generation1))]), SEAL_BODY)
    case ReportCompromise => Write(s.(reported := true, events := s.events + [EvReported(W(Generation1))]), REPORT_BODY)
    case Decide(k) =>
      var s' := s.(events := s.events + [EvDecided(k.serial, k.glast), EvChosen(k.glast)]);
      if k.envelope.Hpke? && k.envelope.p == Pk(ESCROW) && k.envelope.aad == k.glast then
        var want := if c.standbyFromReport then k.dsb else k.msb;
        var request := Sign(RequestBody(|s.executors|), AUTHORITY);
        Output(s'.(executors := s.executors + [Decided(s.late, k.serial, k.envelope.m, want)]), {request}, request)
      else
        s'.(executors := s.executors + [Stuck(s.late)])
    case Release(i, suite, pkh, m, rd, serial, flag) =>
      var o := s.executors[i];
      var o' := Sent(o.late, o.serial, o.secret, o.want, suite, pkh);
      var token := Sign(TokenBody(i, o'), AUTHORITY);
      Output(s.(executors := s.executors[i := o'],
                events := s.events + [EvReleased(o.serial, m), EvAuthorizedIn(s.late)]), {token}, token)
    case StartStandby(reqid, decid, nonce, kind) =>
      var j := |s.standbys|;
      var quote := Sign(StandbyQuoteBody(j, nonce), CHIP);
      Output(s.(standbys := s.standbys + [Answered(s.late, reqid, decid, nonce)]),
             {quote}, Tuple([W(SuiteStrong), Pk2b(Pk(StandbyKey(j))), quote]))
    case Open(j, tokenid, m, kid, x, serial) =>
      var d := s.standbys[j];
      s.(standbys := s.standbys[j := Opened(d.late, d.reqid, d.decid, d.nonce)],
         events := s.events + [EvOpened(serial, x)])
    case Impostor(chal) =>
      var quote := Sign(Tuple([W(MeasBad), chal]), CHIP);
      Output(s, {quote}, quote)
    case PrimaryChip(chal) =>
      var quote := Sign(Tuple([W(MeasPrimary), chal]), CHIP);
      Output(s, {quote}, quote)
    case RaiseStop =>
      var list := StopList(W(Serial1), W(StopAll));
      Output(s.(late := true), {list}, list)
  }

  function Step(c: Config, s: State, a: Action): State {
    if Enabled(c, s, a) then Apply(c, s, a) else s
  }

  function Exec(c: Config, run: seq<Action>): State {
    if run == [] then Init(c) else Step(c, Exec(c, run[..|run| - 1]), run[|run| - 1])
  }
}
