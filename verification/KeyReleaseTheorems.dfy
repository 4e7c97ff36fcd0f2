/** The table of the key release, for every configuration: each query holds exactly when the
    protections it rests on are in place, whatever the other choices are. */
module KeyReleaseTheorems {
  import opened Terms
  import opened KeyRelease
  import opened KeyReleaseSafety
  import opened KeyReleaseQueries
  import opened KeyReleaseAttacks

  /** S: the genome key stays secret exactly when the challenge covers the recipient key and its
      suite, recipient keys are fresh, and the chips' key has not leaked. */
  lemma SecrecyExactly(c: Config)
    ensures KeySecret(c) <==> c.binding.KeyAndSuite? && c.freshKeys && !c.chipKeyLeaked
  {
    if KeepsKey(c) {
      SecrecyHolds(c);
    } else {
      var s;
      if c.chipKeyLeaked || c.binding.NonceAlone? { s := StealByOwnKey(c); }
      else if c.binding.KeyOnly? { s := StealByWeakSuite(c); }
      else { s := StealByLaterLeak(c); }
      var run :| s == Exec(c, run);
      assert DEK in Exec(c, run).known;
    }
  }

  /** A1: what the destination opens was authorized for its decision, exactly while the
      authority's key has not leaked. */
  lemma AuthorizationExactly(c: Config)
    ensures OpeningsAuthorized(c) <==> !c.authorityKeyLeaked
  {
    if c.authorityKeyLeaked {
      var s := OpenForgedToken(c);
      var run :| s == Exec(c, run);
      assert forall y: nat :: !AuthorizedEarlier(Exec(c, run).events, 1, y);
    } else {
      AuthorizationHolds(c);
    }
  }

  /** A2: each authorization answers to a key generation of its own, exactly when the challenge
      covers the recipient key and the chips' key has not leaked. */
  lemma RecipientExactly(c: Config)
    ensures InjectiveAgreement(c, AuthorizedToGenerated) <==> !c.binding.NonceAlone? && !c.chipKeyLeaked
  {
    if KeepsRecipient(c) {
      AgreementHolds(c, AuthorizedToGenerated);
    } else {
      var s := StealByOwnKey(c);
      var run :| s == Exec(c, run);
      forall f ensures !Pairs(s.events, AuthorizedToGenerated, f) {
        assert s.events[1].key == Pk(EVE) && s.events[0].key != Pk(EVE);
        assert Effect(AuthorizedToGenerated, s.events[1]);
      }
      assert !Agree(Exec(c, run).events, AuthorizedToGenerated);
    }
  }

  /** A3: each opening answers to a release of its own, exactly when recipient keys are fresh and
      the authority's key has not leaked. */
  lemma SingleOpeningExactly(c: Config)
    ensures InjectiveAgreement(c, OpenedToReleased) <==> c.freshKeys && !c.authorityKeyLeaked
  {
    if KeepsSingleOpening(c) {
      AgreementHolds(c, OpenedToReleased);
    } else if c.authorityKeyLeaked {
      var s := OpenForgedToken(c);
      var run :| s == Exec(c, run);
      forall f ensures !Pairs(s.events, OpenedToReleased, f) {
        assert Effect(OpenedToReleased, s.events[1]);
      }
      assert !Agree(Exec(c, run).events, OpenedToReleased);
    } else {
      var s := OpenTwice(c);
      var run :| s == Exec(c, run);
      forall f ensures !Pairs(s.events, OpenedToReleased, f) {
        assert Effect(OpenedToReleased, s.events[5]) && Effect(OpenedToReleased, s.events[7]);
      }
      assert !Agree(Exec(c, run).events, OpenedToReleased);
    }
  }

  /** P: nothing is authorized once the stop is on the record, exactly when the source refuses a
      list older than the newest on its record. */
  lemma StopExactly(c: Config)
    ensures StopIsFinal(c) <==> c.refusesRollback
  {
    if c.refusesRollback {
      StopHolds(c);
    } else {
      var s := AuthorizeAfterStop(c);
      var run :| s == Exec(c, run);
      assert Exec(c, run).events[2].late;
    }
  }

  /** R: each confirmation answers to a restore of its own, exactly when the receipt names the
      decision and the chips' key has not leaked. */
  lemma ReceiptExactly(c: Config)
    ensures InjectiveAgreement(c, ConfirmedToRestored) <==> c.receiptNamesDecision && !c.chipKeyLeaked
  {
    if KeepsReceipt(c) {
      AgreementHolds(c, ConfirmedToRestored);
    } else if c.chipKeyLeaked {
      var s := ConfirmWithForgedReceipt(c);
      var run :| s == Exec(c, run);
      forall f ensures !Pairs(s.events, ConfirmedToRestored, f) {
        assert Effect(ConfirmedToRestored, s.events[4]);
      }
      assert !Agree(Exec(c, run).events, ConfirmedToRestored);
    } else {
      var s := ConfirmWithOldReceipt(c);
      var run :| s == Exec(c, run);
      forall f ensures !Pairs(s.events, ConfirmedToRestored, f) {
        assert Effect(ConfirmedToRestored, s.events[10]);
        assert Name(DecisionId(1)) != Name(DecisionId(0));
      }
      assert !Agree(Exec(c, run).events, ConfirmedToRestored);
    }
  }

  /** The seven guarantees, as one row of the table. */
  datatype Row = Row(s: bool, a1: bool, a2: bool, a3: bool, p: bool, r: bool, m: bool)

  ghost function RowOf(c: Config): Row {
    Row(KeySecret(c), OpeningsAuthorized(c), InjectiveAgreement(c, AuthorizedToGenerated),
        InjectiveAgreement(c, OpenedToReleased), StopIsFinal(c),
        InjectiveAgreement(c, ConfirmedToRestored), UnlistedNeverAuthorized(c))
  }

  lemma RowExactly(c: Config)
    ensures RowOf(c) == Row(KeepsKey(c), KeepsAuthorization(c), KeepsRecipient(c), KeepsSingleOpening(c),
                            KeepsStop(c), KeepsReceipt(c), true)
  {
    SecrecyExactly(c);
    AuthorizationExactly(c);
    RecipientExactly(c);
    SingleOpeningExactly(c);
    StopExactly(c);
    ReceiptExactly(c);
    UnlistedChipNeverAuthorized(c);
  }

  /** The eight recorded rows. */
  lemma RecordedTable()
    ensures RowOf(BASE) == Row(true, true, true, true, true, true, true)
    ensures RowOf(NO_BIND) == Row(false, true, false, true, true, true, true)
    ensures RowOf(NO_SUITE_BIND) == Row(false, true, true, true, true, true, true)
    ensures RowOf(SHARED_KEY) == Row(false, true, true, false, true, true, true)
    ensures RowOf(STOP_ROLLBACK) == Row(true, true, true, true, false, true, true)
    ensures RowOf(RECEIPT_NO_DECISION) == Row(true, true, true, true, true, false, true)
    ensures RowOf(CHIP_KEY_LEAKED) == Row(false, true, false, true, true, false, true)
    ensures RowOf(AUTHORITY_KEY_LEAKED) == Row(true, false, true, false, true, true, true)
  {
    RowExactly(BASE);
    RowExactly(NO_BIND);
    RowExactly(NO_SUITE_BIND);
    RowExactly(SHARED_KEY);
    RowExactly(STOP_ROLLBACK);
    RowExactly(RECEIPT_NO_DECISION);
    RowExactly(CHIP_KEY_LEAKED);
    RowExactly(AUTHORITY_KEY_LEAKED);
  }
}
