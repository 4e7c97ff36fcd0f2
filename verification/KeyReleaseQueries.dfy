/** The seven queries of the key release, and the half of each theorem that says the query holds
    when the protections it rests on are in place. */
module KeyReleaseQueries {
  import opened Terms
  import opened KeyRelease
  import opened KeyReleaseSafety

  /** Which event answers for which in an injective correspondence. */
  datatype Link = AuthorizedToGenerated | OpenedToReleased | ConfirmedToRestored

  predicate Effect(l: Link, e: Event) {
    match l
    case AuthorizedToGenerated => e.EvAuthorized?
    case OpenedToReleased => e.EvOpened?
    case ConfirmedToRestored => e.EvConfirmed?
  }

  predicate Partner(l: Link, cause: Event, e: Event)
    requires Effect(l, e)
  {
    match l
    case AuthorizedToGenerated => cause.EvGenerated? && cause.key == e.key
    case OpenedToReleased => cause.EvReleased? && cause.decision == e.decision && cause.secret == e.secret
    case ConfirmedToRestored =>
      cause.EvRestored? && cause.decision == e.decision && cause.keyId == e.keyId && cause.measurement == e.measurement
  }

  /** f gives every effect an earlier partner of its own. */
  ghost predicate Pairs(events: seq<Event>, l: Link, f: map<nat, nat>) {
    && (forall x: nat | x < |events| && Effect(l, events[x]) ::
          x in f && f[x] < x && Partner(l, events[f[x]], events[x]))
    && (forall x, y | x in f && y in f && f[x] == f[y] :: x == y)
  }

  ghost predicate Agree(events: seq<Event>, l: Link) { exists f :: Pairs(events, l, f) }

  ghost predicate InjectiveAgreement(c: Config, l: Link) {
    forall run :: Agree(Exec(c, run).events, l)
  }

  ghost predicate KeySecret(c: Config) { forall run :: DEK !in Exec(c, run).known }

  ghost predicate AuthorizedEarlier(events: seq<Event>, x: nat, y: nat)
    requires x < |events|
  {
    y < x && events[x].EvOpened? && events[y].EvAuthorized? && events[y].decision == events[x].decision
  }

  ghost predicate OpeningsAuthorized(c: Config) {
    forall run, x: nat | x < |Exec(c, run).events| && Exec(c, run).events[x].EvOpened? ::
      exists y: nat :: AuthorizedEarlier(Exec(c, run).events, x, y)
  }

  ghost predicate StopIsFinal(c: Config) {
    forall run, x: nat | x < |Exec(c, run).events| && Exec(c, run).events[x].EvAuthorizedIn? ::
      !Exec(c, run).events[x].late
  }

  ghost predicate UnlistedNeverAuthorized(c: Config) {
    forall run, x: nat | x < |Exec(c, run).events| && Exec(c, run).events[x].EvAuthorized? ::
      Exec(c, run).events[x].measurement != W(MeasBad)
  }

  // ----- The queries hold -----

  /** The partner the sessions' own state names, which no other effect can share. */
  ghost predicate Paired(c: Config, s: State, l: Link, x: nat, y: nat)
    requires x < |s.events| && Effect(l, s.events[x])
  {
    match s.events[x]
    case EvAuthorized(i, _, _, p) => exists j: nat :: GeneratedFor(c, s, i, p, x, j) && y == s.dests[j].at
    case EvOpened(j, d, k) => exists i: nat :: ReleasedFor(c, s, d, k, x, j, i) && y == s.sources[i].at + 2
    case EvConfirmed(i, _, _, _) => exists j: nat :: RestoredFor(s, i, x, j) && y == s.dests[j].restoredAt
  }

  predicate Keeps(c: Config, l: Link) {
    match l
    case AuthorizedToGenerated => KeepsRecipient(c)
    case OpenedToReleased => KeepsSingleOpening(c)
    case ConfirmedToRestored => KeepsReceipt(c)
  }

  lemma HasPartner(c: Config, s: State, l: Link, x: nat) returns (y: nat)
    requires Inv(c, s) && Keeps(c, l) && x < |s.events| && Effect(l, s.events[x])
    ensures Paired(c, s, l, x, y) && y < x && Partner(l, s.events[y], s.events[x])
  {
    assert EventFits(c, s, x);
    match s.events[x]
    case EvAuthorized(i, d, m, p) =>
      var j: nat :| GeneratedFor(c, s, i, p, x, j);
      assert DestFits(c, s, j);
      y := s.dests[j].at;
    case EvOpened(j, d, k) =>
      var i: nat :| ReleasedFor(c, s, d, k, x, j, i);
      assert SourceFits(s, i);
      y := s.sources[i].at + 2;
    case EvConfirmed(i, d, kid, m) =>
      var j: nat :| RestoredFor(s, i, x, j);
      y := s.dests[j].restoredAt;
  }

  lemma PartnerIsOwn(c: Config, s: State, l: Link, x: nat, x': nat, y: nat)
    requires Inv(c, s) && Keeps(c, l)
    requires x < |s.events| && Effect(l, s.events[x]) && Paired(c, s, l, x, y)
    requires x' < |s.events| && Effect(l, s.events[x']) && Paired(c, s, l, x', y)
    ensures x == x'
  {
    assert EventFits(c, s, x) && EventFits(c, s, x');
    match s.events[x]
    case EvAuthorized(i, _, _, p) =>
      var j: nat :| GeneratedFor(c, s, i, p, x, j) && y == s.dests[j].at;
      var i', p' := s.events[x'].who, s.events[x'].key;
      var j': nat :| GeneratedFor(c, s, i', p', x', j') && y == s.dests[j'].at;
      assert DestFits(c, s, j) && DestFits(c, s, j');
      assert Name(Nonce(i)) == Name(Nonce(i'));
    case EvOpened(j, d, k) =>
      var i: nat :| ReleasedFor(c, s, d, k, x, j, i) && y == s.sources[i].at + 2;
      var e := s.events[x'];
      var i': nat :| ReleasedFor(c, s, e.decision, e.secret, x', e.who, i') && y == s.sources[i'].at + 2;
      assert SourceFits(s, i) && SourceFits(s, i');
      assert Recipient(c, j) == Recipient(c, e.who);
    case EvConfirmed(i, _, _, _) =>
      var j: nat :| RestoredFor(s, i, x, j) && y == s.dests[j].restoredAt;
      var i' := s.events[x'].who;
      var j': nat :| RestoredFor(s, i', x', j') && y == s.dests[j'].restoredAt;
      assert Name(DecisionId(i)) == Name(DecisionId(i'));
  }

  /** Pairs for the first n events. */
  ghost predicate PairedUpTo(c: Config, s: State, l: Link, n: nat, f: map<nat, nat>)
    requires n <= |s.events|
  {
    && (forall x: nat | x < n && Effect(l, s.events[x]) :: x in f)
    && (forall x: nat | x in f ::
          && x < n && Effect(l, s.events[x]) && Paired(c, s, l, x, f[x])
          && f[x] < x && Partner(l, s.events[f[x]], s.events[x]))
  }

  lemma {:induction false} PairUp(c: Config, s: State, l: Link, n: nat) returns (f: map<nat, nat>)
    requires Inv(c, s) && Keeps(c, l) && n <= |s.events|
    ensures PairedUpTo(c, s, l, n, f)
  {
    if n == 0 {
      f := map[];
    } else {
      f := PairUp(c, s, l, n - 1);
      if Effect(l, s.events[n - 1]) {
        var y := HasPartner(c, s, l, n - 1);
        f := f[n - 1 := y];
      }
    }
  }

  /** Injective agreement: every effect of every run has an earlier partner of its own. */
  lemma AgreementHolds(c: Config, l: Link)
    requires Keeps(c, l)
    ensures InjectiveAgreement(c, l)
  {
    forall run ensures Agree(Exec(c, run).events, l) {
      RunKeeps(c, run);
      var s := Exec(c, run);
      var f := PairUp(c, s, l, |s.events|);
      forall x, y | x in f && y in f && f[x] == f[y] ensures x == y {
        PartnerIsOwn(c, s, l, x, y, f[x]);
      }
      assert Pairs(s.events, l, f);
    }
  }

  lemma SecrecyHolds(c: Config)
    requires KeepsKey(c)
    ensures KeySecret(c)
  {
    forall run ensures DEK !in Exec(c, run).known {
      RunKeeps(c, run);
      assert !Public(GuardOf(c, Exec(c, run)), DEK);
    }
  }

  lemma AuthorizationHolds(c: Config)
    requires KeepsAuthorization(c)
    ensures OpeningsAuthorized(c)
  {
    forall run, x: nat | x < |Exec(c, run).events| && Exec(c, run).events[x].EvOpened?
      ensures exists y: nat :: AuthorizedEarlier(Exec(c, run).events, x, y)
    {
      RunKeeps(c, run);
      var s := Exec(c, run);
      assert EventFits(c, s, x);
      var e := s.events[x];
      var i: nat :| ReleasedFor(c, s, e.decision, e.secret, x, e.who, i);
      assert SourceFits(s, i);
      assert AuthorizedEarlier(s.events, x, s.sources[i].at);
    }
  }

  lemma StopHolds(c: Config)
    requires KeepsStop(c)
    ensures StopIsFinal(c)
  {
    forall run, x: nat | x < |Exec(c, run).events| && Exec(c, run).events[x].EvAuthorizedIn?
      ensures !Exec(c, run).events[x].late
    {
      RunKeeps(c, run);
      assert EventFits(c, Exec(c, run), x);
    }
  }

  /** M: the allow-list alone keeps the unlisted chip out, whatever has leaked. */
  lemma UnlistedChipNeverAuthorized(c: Config)
    ensures UnlistedNeverAuthorized(c)
  {
    forall run, x: nat | x < |Exec(c, run).events| && Exec(c, run).events[x].EvAuthorized?
      ensures Exec(c, run).events[x].measurement != W(MeasBad)
    {
      RunKeeps(c, run);
      assert EventFits(c, Exec(c, run), x);
    }
  }
}
