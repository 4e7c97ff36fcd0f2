/** Moving a sealed model between two servers: the order, the target's proof, the envelope, the two
    files, and everything else that may happen at the target meanwhile. */
module ConsoleMove {
  import opened Options
  import opened ConsoleSteps
  import opened ConsoleSafety
  import opened ConsoleTheorems
  import opened ConsoleServers

  // ----- Orders, evidence, envelopes -----

  /** A pin: the measurements the order accepts of the target's chip. */
  datatype Pin = Pin(measurements: set<nat>)

  datatype Target = Target(readable: bool, cert: nat, pin: Pin, joinCode: nat)

  datatype MoveOrder = MoveOrder(
    complete: bool, id: nat, from: nat, bundle: FileName, to: Target, issuedAt: int, expiresAt: int,
    kid: nat, signer: Key)

  datatype OrderBytes = NotAnOrder(id: nat) | OrderOf(order: MoveOrder)

  const MAX_AGE: int := 900   // seconds
  const SKEW: int := 300      // how far ahead of the server's clock an order may be issued

  /** ParseMoveOrder: well formed, signed under pub as kid, addressed to this certificate, in time. */
  function ParseMoveOrder(raw: OrderBytes, pub: Key, kid: nat, cert: nat, now: int): (order: Option<MoveOrder>)
    ensures order.Some? <==>
            && raw.OrderOf? && raw.order.complete && raw.order.bundle.BundleFile?
            && raw.order.kid == kid && raw.order.signer == pub
            && raw.order.from == cert && raw.order.expiresAt - raw.order.issuedAt <= 15 * 60
            && raw.order.issuedAt - 5 * 60 <= now <= raw.order.expiresAt
    ensures order.Some? ==> order.value == raw.order
  {
    if raw.NotAnOrder? then None
    else
      var o := raw.order;
      if !o.complete || o.expiresAt - o.issuedAt > MAX_AGE || !o.bundle.BundleFile? then None
      else if o.kid != kid || o.signer != pub || o.from != cert then None
      else if now > o.expiresAt || now < o.issuedAt - SKEW then None
      else Some(o)
  }

  datatype EscrowPem = NoEscrow | BadPem | Pem(key: Key)

  /** The state a server reports when it is asked. */
  datatype Report = Report(stopAll: bool, genomes: set<FileName>, escrow: EscrowPem)

  /** A chip's quote over the challenge, the listener's certificate and the state; or other bytes. */
  datatype Evidence = Quote(measurement: nat, challenge: nat, cert: nat, report: Report) | Noise(id: nat)

  datatype Reply = Reply(report: Report, evidence: Evidence)

  /** VerifyCheck. */
  predicate Proves(reply: Reply, pin: Pin, challenge: nat, cert: nat) {
    && reply.evidence.Quote? && reply.evidence.measurement in pin.measurements
    && (reply.evidence.challenge, reply.evidence.cert, reply.evidence.report) == (challenge, cert, reply.report)
  }

  /** escrow.Open: the key an envelope holds, under the escrow key it was sealed to. */
  function OpenEnvelope(blob: Blob, escrow: Key): Option<nat> {
    if blob.Envelope? && blob.escrow == escrow then Some(blob.dek) else None
  }

  // ----- The two servers -----

  /** What else this server does while it carries out a move, which holds the move lock: requests under
      the people lock and their writes, and the operator's invites. */
  predicate BesideMove(a: Action) {
    match a
    case Begin(q) => !q.Incoming?
    case Desk(o) => !o.Dies?
    case Place(_, _) => true
    case _ => false
  }

  predicate AllBeside(run: seq<Action>) { forall a | a in run :: BesideMove(a) }

  type Beside = run: seq<Action> | AllBeside(run) witness []

  /** What the network and the two servers' other business do to one request: what else happens here
      before it leaves, and at the target before it gets its turn; what becomes of the body; whether the
      target can stat the file it asks for; what fails there; whether the answer comes back. */
  datatype Leg = Leg(
    here: Beside, meanwhile: seq<Action>, arrived: Option<Blob>, stats: bool, f: Fault, answered: bool)

  /** A whole move: its legs, what else happens here before the release and before the last record, what
      becomes of the three records, and what can be read here. */
  datatype Course = Course(
    join: Leg, bundle: Leg, envelope: Leg, beforeRelease: Beside, beforeSent: Beside,
    ordered: Outcome, released: Outcome, sent: Outcome, lists: bool, stats: bool, opens: bool)

  /** One body handed to the network, and the source's record when it was. */
  datatype Sending = Sending(name: FileName, blob: Blob, journal: seq<Record>)

  /** The model leaves before its key, and nothing else does. */
  predicate ModelFirst(wire: seq<Sending>, bundle: FileName) {
    && |wire| <= 2
    && (|wire| > 0 ==> wire[0].name == bundle)
    && (|wire| > 1 ==> bundle.BundleFile? && wire[1].name == EnvelopeFile(bundle.id))
  }

  /** What leaves is the model and then its envelope, each after what is on the journal. */
  predicate SentOnly(wire: seq<Sending>, journal: seq<Record>, bundle: FileName, model: Blob, envelope: Blob) {
    && bundle.BundleFile? && ModelFirst(wire, bundle)
    && forall w | w in wire ::
         journal <= w.journal && (w.name, w.blob) in {(bundle, model), (EnvelopeFile(bundle.id), envelope)}
  }

  lemma SentTwo(journal: seq<Record>, bundle: FileName, first: Sending, second: Sending)
    requires bundle.BundleFile? && first.name == bundle && journal <= first.journal
    ensures SentOnly([first], journal, bundle, first.blob, second.blob)
    ensures second.name == EnvelopeFile(bundle.id) && journal <= second.journal ==>
              SentOnly([first, second], journal, bundle, first.blob, second.blob)
  {
  }

  /** How a move ends; Done with the report the target's chip proved. */
  datatype MoveResult = NotMade | Interrupted | Lost | Done(report: Report, escrow: Key)

  /** The other business here leaves the process up, the move lock held and the genome directory alone. */
  lemma {:induction false} BesideKeeps(c: Config, s: State, run: seq<Action>)
    requires Inv(s) && s.up && AllBeside(run)
    ensures var s' := Run(c, s, run);
            && Inv(s') && s'.up && s'.door == s.door && s'.disk.genomes == s.disk.genomes && s.journal <= s'.journal
  {
    if run != [] {
      var init := run[..|run| - 1];
      assert forall a | a in init :: a in run;
      BesideKeeps(c, s, init);
      StepKeeps(c, Run(c, s, init), run[|run| - 1]);
      assert BesideMove(run[|run| - 1]);
      StepBeside(c, Run(c, s, init), run[|run| - 1]);
    }
  }

  lemma StepBeside(c: Config, s: State, a: Action)
    requires ForDesk(s.desk) && s.up && BesideMove(a)
    ensures var s' := Step(c, s, a);
            && s'.up && s'.door == s.door && s'.disk.genomes == s.disk.genomes && s.journal <= s'.journal
  {
    GenomesUntouched(c, s, a);
  }

  /** The model's key can be had here: from its key file, where that can be stated, and otherwise from
      this server's own envelope. */
  predicate KeyHere(genomes: map<FileName, Blob>, own: Option<Key>, bundle: FileName, stats: bool) {
    && bundle.BundleFile? && bundle in genomes && genomes[bundle].Bundle?
    && var dek := genomes[bundle].dek;
    if stats && KeyFileFor(bundle.id) in genomes then genomes[KeyFileFor(bundle.id)] == RawKey(dek)
    else own.Some? && EnvelopeFile(bundle.id) in genomes
         && OpenEnvelope(genomes[EnvelopeFile(bundle.id)], own.value) == Some(dek)
  }

  /** envelopeFor: the model's key, opened here by its key file, where that can be stated, or this
      server's own envelope, and wrapped to the target's escrow key. */
  method EnvelopeFor(genomes: map<FileName, Blob>, own: Option<Key>, bundle: FileName, target: Key, stats: bool)
    returns (envelope: Option<Blob>)
    requires bundle.BundleFile? && bundle in genomes
    ensures envelope.Some? ==>
              genomes[bundle].Bundle? && envelope.value == Envelope(genomes[bundle].dek, target)
    ensures envelope.Some? <==> KeyHere(genomes, own, bundle, stats)
    ensures stats && KeyFileFor(bundle.id) in genomes && genomes[bundle].Bundle? ==>
              (envelope.Some? <==> genomes[KeyFileFor(bundle.id)] == RawKey(genomes[bundle].dek))
  {
    if !genomes[bundle].Bundle? { return None; }
    var keyId := genomes[bundle].dek;
    var dek: nat;
    if stats && KeyFileFor(bundle.id) in genomes {
      var file := genomes[KeyFileFor(bundle.id)];
      if !file.RawKey? || file.dek != keyId { return None; }
      dek := file.dek;
    } else {
      if own.None? || EnvelopeFile(bundle.id) !in genomes { return None; }
      var sealedKey := genomes[EnvelopeFile(bundle.id)];
      if !sealedKey.Envelope? || sealedKey.dek != keyId || sealedKey.escrow != own.value { return None; }
      dek := sealedKey.dek;
    }
    envelope := Some(Envelope(dek, target));
  }

  /** Somebody with that key is on the list, in their time, as another server or an owner. */
  predicate MayHandIn(s: State, sender: Key, now: int) {
    exists p | p in s.people :: p.key == sender && !Expired(p, now) && (p.role.Peer? || p.role.Owner?)
  }

  /** The target takes the file from that sender: what stands in the way when the request gets its turn
      is nothing of what the source sends. */
  predicate TakesIn(s: State, sender: Key, now: int, name: FileName, blob: Blob, leg: Leg) {
    && s.up && s.door == [] && MayHandIn(s, sender, now) && ValidName(name)
    && (leg.stats ==> name !in s.disk.genomes) && leg.arrived == Some(blob) && Clean(leg.f, 2)
  }

  /** s' is s with the file kept, and the record of it. */
  predicate Kept(s: State, s': State, name: FileName, blob: Blob) {
    s' == s.(disk := s.disk.(genomes := s.disk.genomes[name := blob]), journal := s'.journal)
  }

  /** put: one file handed over. The target admits the sender by its key, and answers when the file
      is kept. */
  method Put(target: ConsoleServer, sender: Key, now: int, name: FileName, blob: Blob, leg: Leg)
    returns (ok: bool, ghost did: seq<Action>)
    requires Inv(target.Machine())
    modifies target
    ensures target.Machine() == Run(target.c, old(target.Machine()), did) && Inv(target.Machine())
    ensures ok ==>
              && name in target.disk.genomes && target.disk.genomes[name] == blob
              && FileOnRecord(name, blob, target.journal)
    ensures var s := Run(target.c, old(target.Machine()), leg.meanwhile);
            && (ok <==> leg.answered && TakesIn(s, sender, now, name, blob, leg))
            && (ok ==> Kept(s, target.Machine(), name, blob))
  {
    ghost var s := target.Machine();
    target.Meanwhile(leg.meanwhile);
    RunKeeps(target.c, s, leg.meanwhile);
    ghost var rest;
    ok, rest := HandIn(target, sender, now, name, blob, leg);
    RunJoined(target.c, s, leg.meanwhile, rest);
    did := leg.meanwhile + rest;
  }

  /** ... once it gets its turn. */
  method HandIn(target: ConsoleServer, sender: Key, now: int, name: FileName, blob: Blob, leg: Leg)
    returns (ok: bool, ghost did: seq<Action>)
    requires Inv(target.Machine())
    modifies target
    ensures target.Machine() == Run(target.c, old(target.Machine()), did) && Inv(target.Machine())
    ensures ok <==> leg.answered && TakesIn(old(target.Machine()), sender, now, name, blob, leg)
    ensures ok ==> Kept(old(target.Machine()), target.Machine(), name, blob) && FileOnRecord(name, blob, target.journal)
  {
    ok, did := false, [];
    if !target.up || target.door != [] { return; }
    var person := target.Admit(sender, Peer, now);
    if person.None? { return; }
    ghost var s := target.Machine();
    ghost var q := Incoming(person.value, name, leg.arrived, Some(DigestOf(blob)), leg.stats);
    ghost var ws := IncomingWrites(s, q.peer, q.file, q.arrived, q.stated, q.stats);
    OneMayHandIn(s, person.value, sender, now);
    var resp := target.HandleIncoming(person.value, name, leg.arrived, Some(DigestOf(blob)), leg.stats, leg.f);
    IncomingIsRun(target.c, s, q, leg.f);
    did := [Begin(q)] + AtDoor(Outcomes(|ws|, leg.f, 0));
    RunKeeps(target.c, s, did);
    if resp.Accepted? {
      assert target.journal[|s.journal|] == Received(person.value.name, name, DigestOf(blob));
      assert Receives(Received(person.value.name, name, DigestOf(blob)), name, blob);
    }
    ok := resp.Accepted? && leg.answered;
  }

  /** Keys are distinct: whoever is found by one is the only one that could hand a file in by it. */
  lemma OneMayHandIn(s: State, p: Person, sender: Key, now: int)
    requires Inv(s) && p in s.people && p.key == sender && !Expired(p, now)
    ensures MayHandIn(s, sender, now) <==> p.role.Peer? || p.role.Owner?
  {
    OneHolds(s.people, p);
  }

  /** The list in force can be loaded and is no stop. */
  predicate Open(c: Config, d: Disk, listReads: bool) {
    && d.key.Holder? && SerialInForce(c, d, d.key.key, listReads) > 0
    && d.stop.Some? && d.stop.value.StopList? && !d.stop.value.stopAll
  }

  /** So nothing is moved before the holder's first list, nor while the newest list ever written is a stop,
      nor while that one cannot be read; and otherwise the stop stands in no order's way. */
  lemma OpenExactly(c: Config, s: State, listReads: bool)
    requires Inv(s) && SerialsGood(c, s)
    ensures Open(c, s.disk, listReads) <==>
            && listReads && s.past.lists != []
            && s.past.lists[|s.past.lists| - 1].StopList? && !s.past.lists[|s.past.lists| - 1].stopAll
  {
    if s.past.lists != [] { LastIsNewest(c, s); }
  }

  /** Both records are on the journal, one before the other. */
  predicate Before(journal: seq<Record>, first: Record, second: Record) {
    exists i, j | 0 <= i < j < |journal| :: journal[i] == first && journal[j] == second
  }

  lemma BeforeStays(journal: seq<Record>, journal': seq<Record>, first: Record, second: Record)
    requires Before(journal, first, second) && journal <= journal'
    ensures Before(journal', first, second) && second in journal'
  {
    var i, j :| 0 <= i < j < |journal| && journal[i] == first && journal[j] == second;
    assert journal'[i] == first && journal'[j] == second;
  }

  lemma BeforeNew(journal: seq<Record>, first: Record, second: Record)
    requires first in journal
    ensures Before(journal + [second], first, second)
  {
    var i :| 0 <= i < |journal| && journal[i] == first;
    var more := journal + [second];
    assert more[i] == first && more[|journal|] == second;
  }

  /** The order is on the record, and after it the release to that chip and escrow key. */
  predicate ReleaseOnRecord(journal: seq<Record>, who: nat, order: MoveOrder, measurement: nat, escrow: Key) {
    Before(journal, MoveOrdered(who, order.id, order.bundle),
           Released(who, order.id, order.bundle, measurement, escrow))
  }

  /** A body may leave: it is the sealed model or its key wrapped to the escrow key the target's
      verified chip named, and the order and this release are on the record. */
  predicate MayLeave(
    w: Sending, genomes: map<FileName, Blob>, who: nat, order: MoveOrder, reply: Option<Reply>, challenge: nat)
  {
    && reply.Some? && Proves(reply.value, order.to.pin, challenge, order.to.cert)
    && reply.value.report.escrow.Pem? && !reply.value.report.stopAll
    && order.bundle in genomes && genomes[order.bundle].Bundle?
    && ReleaseOnRecord(w.journal, who, order, reply.value.evidence.measurement, reply.value.report.escrow.key)
    && (if w.name == order.bundle then w.blob == genomes[order.bundle]
        else w.name == EnvelopeFile(order.bundle.id)
             && w.blob == Envelope(genomes[order.bundle].dek, reply.value.report.escrow.key))
  }

  /** The model and its envelope are at the target as they are at the source. */
  predicate Delivered(source: map<FileName, Blob>, target: map<FileName, Blob>, bundle: FileName, escrow: Key) {
    && bundle.BundleFile? && bundle in source && bundle in target && EnvelopeFile(bundle.id) in target
    && target[bundle] == source[bundle] && source[bundle].Bundle?
    && OpenEnvelope(target[EnvelopeFile(bundle.id)], escrow) == Some(source[bundle].dek)
  }

  /** Nothing the target does in the run overwrites a file. */
  predicate Unbothered(c: Config, s: State, run: seq<Action>) { DoorKeeps(s) && NeverOverwrites(c, s, run) }

  lemma UnbotheredLater(c: Config, s: State, one: seq<Action>, two: seq<Action>)
    requires Inv(s) && Unbothered(c, s, one + two)
    ensures Unbothered(c, s, one) && Unbothered(c, Run(c, s, one), two)
  {
    NeverInParts(c, s, one, two);
    FilesStay(c, s, one);
  }

  /** The target lets the source in, and says so. */
  predicate LetsIn(c: Config, t: State, key: Key, code: nat, now: int, leg: Leg) {
    && leg.answered
    && var s := Run(c, t, leg.meanwhile);
    s.up && s.desk == [] && JoinSucceeds(c, s, key, code, now, leg.stats, leg.f)
  }

  /** s' is s with the caller on the list, if it was not. */
  predicate LetIn(s: State, s': State, key: Key, code: nat) {
    && s'.up && s'.desk == [] && s'.door == s.door && s'.disk.genomes == s.disk.genomes
    && (Lists(s.people, key) ==> s'.people == s.people)
    && (!Lists(s.people, key) ==>
          && code in s.disk.invites && s.disk.invites[code].Invite?
          && s'.people == s.people + [PlaceOf(s.disk.invites[code], key)])
  }

  /** The source has the model and its key, and the order names another server that it reaches. */
  predicate Sends(genomes: map<FileName, Blob>, own: Option<Key>, cert: nat, order: MoveOrder, reached: nat,
                  course: Course) {
    && course.lists && order.to.readable && cert != order.to.cert == reached
    && KeyHere(genomes, own, order.bundle, course.stats)
  }

  /** The target's chip proves a server that is not stopped, lacks the model and can be given it. */
  predicate Wanted(reply: Option<Reply>, order: MoveOrder, challenge: nat) {
    && reply.Some? && Proves(reply.value, order.to.pin, challenge, order.to.cert)
    && !reply.value.report.stopAll && order.bundle !in reply.value.report.genomes
    && reply.value.report.escrow.Pem?
  }

  /** Nothing else happens at the target first, nothing fails there, and the answer comes back. */
  predicate Undisturbed(leg: Leg) { leg.meanwhile == [] && leg.f.how.Happens? && leg.answered }

  /** ... and the body arrives as it was sent. */
  predicate Whole(leg: Leg, blob: Blob) { Undisturbed(leg) && leg.arrived == Some(blob) }

  /** The two names are free at the target, and nobody is handing a file in. */
  predicate Free(t: State, bundle: FileName) {
    && t.up && t.door == [] && bundle.BundleFile?
    && bundle !in t.disk.genomes && EnvelopeFile(bundle.id) !in t.disk.genomes
  }

  /** The target knows the source as another server or an owner, or the order's code invites one. */
  predicate Welcomes(t: State, key: Key, code: nat, now: int) {
    && t.desk == []
    && (MayHandIn(t, key, now)
        || (!Lists(t.people, key) && Redeemable(t.disk, code, now)
            && (t.disk.invites[code].role.Peer? || t.disk.invites[code].role.Owner?)))
  }

  /** From the release on nothing fails here, and both bodies arrive at the target undisturbed. */
  predicate Smooth(course: Course, model: Blob, envelope: Blob) {
    && course.released.Happens? && course.opens && course.sent.Happens?
    && Whole(course.bundle, model) && Whole(course.envelope, envelope)
  }

  lemma WelcomeLetsIn(c: Config, t: State, key: Key, code: nat, now: int, bundle: FileName, leg: Leg)
    requires Free(t, bundle) && Welcomes(t, key, code, now) && Undisturbed(leg)
    ensures LetsIn(c, t, key, code, now, leg)
    ensures forall t' | LetIn(Run(c, t, leg.meanwhile), t', key, code) :: Free(t', bundle) && MayHandIn(t', key, now)
  {
    forall t' | LetIn(Run(c, t, leg.meanwhile), t', key, code) ensures Free(t', bundle) && MayHandIn(t', key, now) {
      if !Lists(t.people, key) {
        var p := PlaceOf(t.disk.invites[code], key);
        assert t'.people[|t.people|] == p;
      }
    }
  }

  /** A file taken stays on record, and stays there while nothing overwrites. */
  lemma StaysTaken(c: Config, t: State, one: seq<Action>, more: seq<Action>, name: FileName, blob: Blob)
    requires Inv(t)
    requires var t1 := Run(c, t, one);
             name in t1.disk.genomes && t1.disk.genomes[name] == blob && FileOnRecord(name, blob, t1.journal)
    ensures var t2 := Run(c, Run(c, t, one), more);
            && Run(c, t, one + more) == t2 && FileOnRecord(name, blob, t2.journal)
            && (Unbothered(c, t, one + more) ==> name in t2.disk.genomes && t2.disk.genomes[name] == blob)
  {
    var t1 := Run(c, t, one);
    RunKeeps(c, t, one);
    RunJoined(c, t, one, more);
    JournalOnlyGrows(c, t1, more);
    OnRecordStays(t1.journal, Run(c, t1, more).journal);
    if Unbothered(c, t, one + more) {
      UnbotheredLater(c, t, one, more);
      FilesStay(c, t1, more);
    }
  }

  /** Both files will be taken, one after the other. */
  predicate BothWhole(t: State, key: Key, now: int, bundle: FileName, blob: Blob, envelope: Blob, course: Course) {
    Whole(course.bundle, blob) && Whole(course.envelope, envelope) && Free(t, bundle) && MayHandIn(t, key, now)
  }

  lemma FirstTaken(c: Config, t: State, key: Key, now: int, bundle: FileName, blob: Blob, envelope: Blob,
                   course: Course)
    ensures BothWhole(t, key, now, bundle, blob, envelope, course) ==>
              && Run(c, t, course.bundle.meanwhile) == t
              && course.bundle.answered && TakesIn(t, key, now, bundle, blob, course.bundle)
  {
  }

  lemma SecondTaken(c: Config, t: State, t1: State, key: Key, now: int, bundle: FileName, blob: Blob, envelope: Blob,
                    course: Course)
    requires BothWhole(t, key, now, bundle, blob, envelope, course) && Kept(t, t1, bundle, blob)
    ensures Run(c, t1, course.envelope.meanwhile) == t1
    ensures TakesIn(t1, key, now, EnvelopeFile(bundle.id), envelope, course.envelope)
    ensures forall t2 | Kept(t1, t2, EnvelopeFile(bundle.id), envelope) ::
              bundle in t2.disk.genomes && t2.disk.genomes[bundle] == blob
  {
  }

  class MovingServer {
    const console: ConsoleServer
    const cert: nat
    const key: Key              // the listener's own key: its identity at another server
    const escrow: Option<Key>
    var movesDone: set<nat>     // of this process: a restart forgets them

    constructor (console: ConsoleServer, cert: nat, key: Key, escrow: Option<Key>)
      ensures this.console == console && this.cert == cert && this.key == key && this.escrow == escrow
      ensures movesDone == {}
    {
      this.console, this.cert, this.key, this.escrow, movesDone := console, cert, key, escrow, {};
    }

    /** The process is up and its invariant holds. */
    predicate Up()
      reads console
    {
      console.up && Inv(console.Machine())
    }

    /** Its other handlers go on while it holds the move lock. */
    method GoOn(run: Beside)
      requires Up()
      modifies console
      ensures Up() && console.door == old(console.door) && console.disk.genomes == old(console.disk.genomes)
      ensures old(console.journal) <= console.journal
    {
      BesideKeeps(console.c, console.Machine(), run);
      console.Meanwhile(run);
    }

    /** The join by which the source gets its place on the target's list. */
    method JoinTarget(target: MovingServer, code: nat, now: int, leg: Leg) returns (ok: bool, ghost did: seq<Action>)
      requires Inv(target.console.Machine())
      modifies target.console
      ensures target.console.Machine() == Run(target.console.c, old(target.console.Machine()), did)
      ensures Inv(target.console.Machine())
      ensures ok <==> LetsIn(target.console.c, old(target.console.Machine()), key, code, now, leg)
      ensures ok ==> var s := Run(target.console.c, old(target.console.Machine()), leg.meanwhile);
                     LetIn(s, target.console.Machine(), key, code)
    {
      var there := target.console;
      ghost var s := there.Machine();
      did, ok := leg.meanwhile, false;
      there.Meanwhile(leg.meanwhile);
      RunKeeps(there.c, s, leg.meanwhile);
      if !there.up || there.desk != [] { return; }
      ghost var s1 := there.Machine();
      ghost var q := Join(key, code, now, leg.stats);
      ghost var begun := Begun(there.c, s1, q);
      ghost var rest := [Begin(q)] + AtDesk(Outcomes(|begun.desk|, leg.f, 0));
      var resp := there.HandleJoin(key, code, now, leg.stats, leg.f);
      assert begun.(desk := []) == s1;
      HandlerIsRun(there.c, s1, q, leg.f);
      RunKeeps(there.c, s1, rest);
      RunJoined(there.c, s, leg.meanwhile, rest);
      did := leg.meanwhile + rest;
      ok := resp.Accepted? && leg.answered;
    }

    /** carryOut up to the release: the target must prove itself before anything is opened. */
    method Prepare(order: MoveOrder, target: MovingServer, now: int, challenge: nat, reply: Option<Reply>,
                   course: Course)
      returns (resp: MoveResult, envelope: Blob, ghost did: seq<Action>)
      requires target.console != console && Inv(target.console.Machine()) && order.bundle.BundleFile? && Up()
      modifies console, target.console
      ensures Up() && console.disk.genomes == old(console.disk.genomes) && old(console.journal) <= console.journal
      ensures target.console.Machine() == Run(target.console.c, old(target.console.Machine()), did)
      ensures Inv(target.console.Machine())
      ensures resp.Done? <==>
                && Sends(old(console.disk.genomes), escrow, cert, order, target.cert, course)
                && Wanted(reply, order, challenge)
                && LetsIn(target.console.c, old(target.console.Machine()), key, order.to.joinCode, now, course.join)
      ensures resp.Done? ==>
                && resp.report == reply.value.report && resp.report.escrow == Pem(resp.escrow)
                && order.bundle !in resp.report.genomes && !resp.report.stopAll
                && envelope == Envelope(console.disk.genomes[order.bundle].dek, resp.escrow)
                && var s := Run(target.console.c, old(target.console.Machine()), course.join.meanwhile);
                LetIn(s, target.console.Machine(), key, order.to.joinCode)
      ensures !resp.Done? ==> envelope == Other(0)
      ensures !resp.Lost?
    {
      envelope, did := Other(0), [];
      if !course.lists || order.bundle !in console.disk.genomes { return NotMade, envelope, did; }
      if !order.to.readable { return NotMade, envelope, did; }
      if order.to.cert == cert { return NotMade, envelope, did; }
      if target.cert != order.to.cert { return Interrupted, envelope, did; }
      GoOn(course.join.here);
      var joined;
      joined, did := JoinTarget(target, order.to.joinCode, now, course.join);
      if !joined || reply.None? { return Interrupted, envelope, did; }
      if !Proves(reply.value, order.to.pin, challenge, target.cert) { return Interrupted, envelope, did; }
      var report := reply.value.report;
      if report.stopAll || order.bundle in report.genomes || !report.escrow.Pem? { return NotMade, envelope, did; }
      var made := EnvelopeFor(console.disk.genomes, escrow, order.bundle, report.escrow.key, course.stats);
      if made.None? { return Interrupted, envelope, did; }
      resp, envelope := Done(report, report.escrow.key), made.value;
    }

    /** One file, after whatever else happens here first. */
    method SendOne(target: MovingServer, name: FileName, blob: Blob, now: int, leg: Leg)
      returns (ok: bool, ghost w: Sending, ghost did: seq<Action>)
      requires target.console != console && Inv(target.console.Machine()) && Up()
      modifies console, target.console
      ensures Up() && console.disk.genomes == old(console.disk.genomes) && old(console.journal) <= console.journal
      ensures w.name == name && w.blob == blob && old(console.journal) <= w.journal
      ensures target.console.Machine() == Run(target.console.c, old(target.console.Machine()), did)
      ensures Inv(target.console.Machine())
      ensures ok ==>
                && name in target.console.disk.genomes && target.console.disk.genomes[name] == blob
                && FileOnRecord(name, blob, target.console.journal)
      ensures var s := Run(target.console.c, old(target.console.Machine()), leg.meanwhile);
              && (ok <==> leg.answered && TakesIn(s, key, now, name, blob, leg))
              && (ok ==> Kept(s, target.console.Machine(), name, blob))
    {
      GoOn(leg.here);
      w := Sending(name, blob, console.journal);
      ok, did := Put(target.console, key, now, name, blob, leg);
    }

    /** The sealed model, then its key. */
    method SendBoth(target: MovingServer, bundle: FileName, blob: Blob, envelope: Blob, now: int, course: Course)
      returns (ok: bool, ghost wire: seq<Sending>, ghost did: seq<Action>)
      requires target.console != console && Inv(target.console.Machine()) && bundle.BundleFile? && Up()
      modifies console, target.console
      ensures Up() && console.disk.genomes == old(console.disk.genomes) && old(console.journal) <= console.journal
      ensures target.console.Machine() == Run(target.console.c, old(target.console.Machine()), did)
      ensures Inv(target.console.Machine())
      ensures SentOnly(wire, old(console.journal), bundle, blob, envelope) && (ok ==> |wire| == 2)
      ensures ok ==>
                && FileOnRecord(bundle, blob, target.console.journal)
                && FileOnRecord(EnvelopeFile(bundle.id), envelope, target.console.journal)
                && EnvelopeFile(bundle.id) in target.console.disk.genomes
                && target.console.disk.genomes[EnvelopeFile(bundle.id)] == envelope
      ensures var t := old(target.console.Machine());
              var whole := BothWhole(t, key, now, bundle, blob, envelope, course);
              && (whole ==> ok)
              && (whole || (ok && Unbothered(target.console.c, t, did)) ==>
                    bundle in target.console.disk.genomes && target.console.disk.genomes[bundle] == blob)
    {
      ghost var t, journal := target.console.Machine(), console.journal;
      FirstTaken(target.console.c, t, key, now, bundle, blob, envelope, course);
      ghost var first;
      ok, first, did := SendOne(target, bundle, blob, now, course.bundle);
      wire := [first];
      SentTwo(journal, bundle, first, Sending(bundle, envelope, []));
      if !ok { return; }
      ok, wire, did := SendKey(target, bundle, envelope, now, course, t, did, first, journal);
    }

    /** ... once the model is there. */
    method SendKey(target: MovingServer, bundle: FileName, envelope: Blob, now: int, course: Course,
                   ghost t: State, ghost one: seq<Action>, ghost first: Sending, ghost journal: seq<Record>)
      returns (ok: bool, ghost wire: seq<Sending>, ghost did: seq<Action>)
      requires target.console != console && Inv(target.console.Machine()) && bundle.BundleFile? && Up()
      requires Inv(t) && target.console.Machine() == Run(target.console.c, t, one)
      requires first.name == bundle && journal <= first.journal && journal <= console.journal
      requires bundle in target.console.disk.genomes && target.console.disk.genomes[bundle] == first.blob
      requires FileOnRecord(bundle, first.blob, target.console.journal)
      requires BothWhole(t, key, now, bundle, first.blob, envelope, course) ==>
                 Kept(t, target.console.Machine(), bundle, first.blob)
      modifies console, target.console
      ensures Up() && console.disk.genomes == old(console.disk.genomes) && old(console.journal) <= console.journal
      ensures target.console.Machine() == Run(target.console.c, t, did) && Inv(target.console.Machine())
      ensures SentOnly(wire, journal, bundle, first.blob, envelope) && |wire| == 2
      ensures ok ==>
                && FileOnRecord(bundle, first.blob, target.console.journal)
                && FileOnRecord(EnvelopeFile(bundle.id), envelope, target.console.journal)
                && EnvelopeFile(bundle.id) in target.console.disk.genomes
                && target.console.disk.genomes[EnvelopeFile(bundle.id)] == envelope
      ensures var whole := BothWhole(t, key, now, bundle, first.blob, envelope, course);
              && (whole ==> ok)
              && (whole || (ok && Unbothered(target.console.c, t, did)) ==>
                    bundle in target.console.disk.genomes && target.console.disk.genomes[bundle] == first.blob)
    {
      ghost var c, t1 := target.console.c, target.console.Machine();
      if BothWhole(t, key, now, bundle, first.blob, envelope, course) {
        SecondTaken(c, t, t1, key, now, bundle, first.blob, envelope, course);
      }
      ghost var second, more;
      ok, second, more := SendOne(target, EnvelopeFile(bundle.id), envelope, now, course.envelope);
      wire := [first, second];
      SentTwo(journal, bundle, first, second);
      StaysTaken(c, t, one, more, bundle, first.blob);
      did := one + more;
    }

    /** carryOut: the target proves itself, then the release goes on the record, then the sealed
        model and its key leave. */
    method CarryOut(order: MoveOrder, who: nat, target: MovingServer, now: int, challenge: nat, reply: Option<Reply>,
                    course: Course)
      returns (resp: MoveResult, ghost wire: seq<Sending>, ghost did: seq<Action>)
      requires target.console != console && Inv(target.console.Machine()) && order.bundle.BundleFile? && Up()
      requires MoveOrdered(who, order.id, order.bundle) in console.journal
      modifies console, target.console
      ensures Inv(console.Machine()) && (resp.Lost? <==> !console.up)
      ensures console.disk.genomes == old(console.disk.genomes) && old(console.journal) <= console.journal
      ensures target.console.Machine() == Run(target.console.c, old(target.console.Machine()), did)
      ensures Inv(target.console.Machine())
      ensures forall w | w in wire :: MayLeave(w, console.disk.genomes, who, order, reply, challenge)
      ensures ModelFirst(wire, order.bundle) && (resp.Done? ==> |wire| == 2)
      ensures resp.Done? ==> Recorded(order, who, console, target.console, reply, challenge, resp.escrow)
      ensures resp.Done? && Unbothered(target.console.c, old(target.console.Machine()), did) ==>
                Delivered(console.disk.genomes, target.console.disk.genomes, order.bundle, resp.escrow)
      ensures resp.Done? ==>
                && Sends(console.disk.genomes, escrow, cert, order, target.cert, course)
                && Wanted(reply, order, challenge)
                && resp.report == reply.value.report
      ensures old(NothingAmiss(order, target.cert, target.console.Machine(), now, challenge, reply, course)) ==>
                && resp.Done?
                && Delivered(console.disk.genomes, target.console.disk.genomes, order.bundle, resp.escrow)
    {
      ghost var t0 := target.console.Machine();
      ghost var smooth := NothingAmiss(order, target.cert, t0, now, challenge, reply, course);
      wire := [];
      if smooth { WelcomeLetsIn(target.console.c, t0, key, order.to.joinCode, now, order.bundle, course.join); }
      var envelope;
      resp, envelope, did := Prepare(order, target, now, challenge, reply, course);
      if !resp.Done? { return; }
      ghost var one, t1 := did, target.console.Machine();
      assert smooth ==> Free(t1, order.bundle) && MayHandIn(t1, key, now);
      ghost var more;
      resp, wire, more :=
        HandOver(order, who, target, now, challenge, reply, envelope, resp.report, resp.escrow, course);
      RunJoined(target.console.c, t0, one, more);
      did := one + more;
      if Unbothered(target.console.c, t0, did) { UnbotheredLater(target.console.c, t0, one, more); }
    }

    /** Everything a move needs is there: the model and its key here, a willing target that welcomes this
        server and has both names free, and a course with nothing in the way. */
    predicate NothingAmiss(order: MoveOrder, reached: nat, t: State, now: int, challenge: nat,
                           reply: Option<Reply>, course: Course)
      reads console
    {
      && Sends(console.disk.genomes, escrow, cert, order, reached, course)
      && Wanted(reply, order, challenge)
      && Welcomes(t, key, order.to.joinCode, now) && Free(t, order.bundle) && Undisturbed(course.join)
      && var model := console.disk.genomes[order.bundle];
      Smooth(course, model, Envelope(model.dek, reply.value.report.escrow.key))
    }

    /** ... what is on the record before the key leaves, and what leaves. */
    method HandOver(order: MoveOrder, who: nat, target: MovingServer, now: int, challenge: nat, reply: Option<Reply>,
                    envelope: Blob, report: Report, toEscrow: Key, course: Course)
      returns (resp: MoveResult, ghost wire: seq<Sending>, ghost did: seq<Action>)
      requires target.console != console && Inv(target.console.Machine()) && order.bundle.BundleFile? && Up()
      requires MoveOrdered(who, order.id, order.bundle) in console.journal
      requires order.bundle in console.disk.genomes && console.disk.genomes[order.bundle].Bundle?
      requires reply.Some? && Proves(reply.value, order.to.pin, challenge, order.to.cert)
      requires reply.value.report.escrow == Pem(toEscrow) && !reply.value.report.stopAll
      requires envelope == Envelope(console.disk.genomes[order.bundle].dek, toEscrow)
      modifies console, target.console
      ensures Inv(console.Machine()) && (resp.Lost? <==> !console.up)
      ensures console.disk.genomes == old(console.disk.genomes) && old(console.journal) <= console.journal
      ensures target.console.Machine() == Run(target.console.c, old(target.console.Machine()), did)
      ensures Inv(target.console.Machine())
      ensures forall w | w in wire :: MayLeave(w, console.disk.genomes, who, order, reply, challenge)
      ensures ModelFirst(wire, order.bundle) && (resp.Done? ==> |wire| == 2)
      ensures resp.Done? ==> Recorded(order, who, console, target.console, reply, challenge, resp.escrow)
      ensures resp.Done? && Unbothered(target.console.c, old(target.console.Machine()), did) ==>
                Delivered(console.disk.genomes, target.console.disk.genomes, order.bundle, resp.escrow)
      ensures resp.Done? ==> resp.report == report && resp.escrow == toEscrow
      ensures var t := old(target.console.Machine());
              Smooth(course, console.disk.genomes[order.bundle], envelope) && Free(t, order.bundle)
                && MayHandIn(t, key, now) ==>
                && resp.Done?
                && Delivered(console.disk.genomes, target.console.disk.genomes, order.bundle, resp.escrow)
    {
      wire, did := [], [];
      var release := Released(who, order.id, order.bundle, reply.value.evidence.measurement, toEscrow);
      var ok := RecordAfter(MoveOrdered(who, order.id, order.bundle), release, course.beforeRelease, course.released);
      if !ok {
        resp := if course.released.Dies? then Lost else Interrupted;
        return;
      }
      if !course.opens { return Interrupted, wire, did; }
      ghost var journal := console.journal;
      var sent;
      sent, wire, did := SendRecorded(order, who, target, now, envelope, release, course);
      SendsMayLeave(wire, console.disk.genomes, who, order, reply.value, challenge, journal, toEscrow);
      resp := if sent then Done(report, toEscrow) else if console.up then Interrupted else Lost;
    }

    /** ... the two files, and the record that they were sent. */
    method SendRecorded(order: MoveOrder, who: nat, target: MovingServer, now: int, envelope: Blob, release: Record,
                        course: Course)
      returns (ok: bool, ghost wire: seq<Sending>, ghost did: seq<Action>)
      requires target.console != console && Inv(target.console.Machine()) && order.bundle.BundleFile? && Up()
      requires order.bundle in console.disk.genomes
      requires Before(console.journal, MoveOrdered(who, order.id, order.bundle), release)
      modifies console, target.console
      ensures Inv(console.Machine()) && (ok ==> console.up)
      ensures console.disk.genomes == old(console.disk.genomes) && old(console.journal) <= console.journal
      ensures target.console.Machine() == Run(target.console.c, old(target.console.Machine()), did)
      ensures Inv(target.console.Machine())
      ensures SentOnly(wire, old(console.journal), order.bundle, console.disk.genomes[order.bundle], envelope)
      ensures ok ==> |wire| == 2
      ensures ok ==>
                var (blob, name) := (console.disk.genomes[order.bundle], EnvelopeFile(order.bundle.id));
                && Before(console.journal, MoveOrdered(who, order.id, order.bundle), release)
                && Before(console.journal, release, Sent(who, order.id, order.bundle, DigestOf(blob)))
                && FileOnRecord(order.bundle, blob, target.console.journal)
                && FileOnRecord(name, envelope, target.console.journal)
                && name in target.console.disk.genomes && target.console.disk.genomes[name] == envelope
      ensures ok && Unbothered(target.console.c, old(target.console.Machine()), did) ==>
                && order.bundle in target.console.disk.genomes
                && target.console.disk.genomes[order.bundle] == console.disk.genomes[order.bundle]
      ensures var (t, blob) := (old(target.console.Machine()), console.disk.genomes[order.bundle]);
              Smooth(course, blob, envelope) && Free(t, order.bundle) && MayHandIn(t, key, now) ==>
                && ok && order.bundle in target.console.disk.genomes
                && target.console.disk.genomes[order.bundle] == blob
    {
      var blob := console.disk.genomes[order.bundle];
      ghost var journal := console.journal;
      ok, wire, did := SendBoth(target, order.bundle, blob, envelope, now, course);
      if !ok { return; }
      BeforeStays(journal, console.journal, MoveOrdered(who, order.id, order.bundle), release);
      ok := RecordAfter(release, Sent(who, order.id, order.bundle, DigestOf(blob)), course.beforeSent, course.sent);
      BeforeStays(journal, console.journal, MoveOrdered(who, order.id, order.bundle), release);
    }

    /** One record after another that is on the journal, whatever else is recorded in between. */
    method RecordAfter(first: Record, second: Record, between: Beside, o: Outcome) returns (ok: bool)
      requires Up() && first in console.journal
      modifies console
      ensures Inv(console.Machine()) && ok == o.Happens? && (console.up <==> !o.Dies?)
      ensures console.disk.genomes == old(console.disk.genomes) && old(console.journal) <= console.journal
      ensures ok ==> Before(console.journal, first, second) && second in console.journal
    {
      ghost var journal := console.journal;
      GoOn(between);
      assert first in console.journal by {
        var i :| 0 <= i < |journal| && journal[i] == first;
        assert console.journal[i] == first;
      }
      BeforeNew(console.journal, first, second);
      ok := console.Note(second, o);
      if ok { assert console.journal[|console.journal| - 1] == second; }
    }

    /** handleMove: an order the holder of the operator key signed for this server, in its time and
        not carried out before, while the stop is off. */
    method HandleMove(raw: OrderBytes, who: nat, keyReads: bool, listReads: bool, now: int, target: MovingServer,
                      challenge: nat, reply: Option<Reply>, course: Course)
      returns (resp: MoveResult, ghost wire: seq<Sending>, ghost did: seq<Action>)
      requires Up() && console.door == []
      requires target.console != console && Inv(target.console.Machine())
      modifies this`movesDone, console, target.console
      ensures Inv(console.Machine()) && (resp.Lost? <==> !console.up)
      ensures console.disk.genomes == old(console.disk.genomes) && old(console.journal) <= console.journal
      ensures old(Takes(raw, keyReads, listReads, now)) && course.ordered.Happens? ==>
                movesDone == old(movesDone) + {raw.order.id}
      ensures old(Takes(raw, keyReads, listReads, now)) && !course.ordered.Happens? ==>
                movesDone == old(movesDone) && !resp.NotMade? && did == []
      ensures raw.OrderOf? && raw.order.id in old(movesDone) ==> resp.NotMade? && wire == [] && did == []
      ensures !old(Takes(raw, keyReads, listReads, now)) ==>
                && resp.NotMade? && movesDone == old(movesDone) && did == []
                && console.Machine() == old(console.Machine())
      ensures target.console.Machine() == Run(target.console.c, old(target.console.Machine()), did)
      ensures Inv(target.console.Machine())
      ensures wire != [] || resp.Done? ==>
                && old(Takes(raw, keyReads, listReads, now)) && course.ordered.Happens?
                && raw.order.id !in old(movesDone)
                && old(console.journal) + [MoveOrdered(who, raw.order.id, raw.order.bundle)] <= console.journal
      ensures forall w | w in wire :: MayLeave(w, console.disk.genomes, who, raw.order, reply, challenge)
      ensures wire != [] ==> ModelFirst(wire, raw.order.bundle)
      ensures resp.Done? ==> |wire| == 2
      ensures resp.Done? ==> Recorded(raw.order, who, console, target.console, reply, challenge, resp.escrow)
      ensures resp.Done? && Unbothered(target.console.c, old(target.console.Machine()), did) ==>
                Delivered(console.disk.genomes, target.console.disk.genomes, raw.order.bundle, resp.escrow)
      ensures resp.Done? ==>
                && Sends(console.disk.genomes, escrow, cert, raw.order, target.cert, course)
                && Wanted(reply, raw.order, challenge) && resp.report == reply.value.report
                && raw.order.bundle !in resp.report.genomes && !resp.report.stopAll
      ensures old(Takes(raw, keyReads, listReads, now)) && course.ordered.Happens?
              && old(NothingAmiss(raw.order, target.cert, target.console.Machine(), now, challenge, reply, course)) ==>
                && resp.Done?
                && Delivered(console.disk.genomes, target.console.disk.genomes, raw.order.bundle, resp.escrow)
    {
      wire, did, resp := [], [], NotMade;
      var order := Accept(raw, keyReads, listReads, now);
      if order.None? { return; }
      var o := order.value;
      var ok := console.Note(MoveOrdered(who, o.id, o.bundle), course.ordered);
      if !ok {
        resp := if course.ordered.Dies? then Lost else Interrupted;
        return;
      }
      movesDone := movesDone + {o.id};
      resp, wire, did := CarryOut(o, who, target, now, challenge, reply, course);
    }

    /** handleMove's tests, before anything is recorded. */
    method Accept(raw: OrderBytes, keyReads: bool, listReads: bool, now: int) returns (order: Option<MoveOrder>)
      ensures order.Some? <==> Takes(raw, keyReads, listReads, now)
      ensures order.Some? ==> order.value == raw.order && order.value.bundle.BundleFile?
    {
      var pub := ReadKey(console.c, console.disk, keyReads);
      if pub.None? { return None; }
      order := ParseMoveOrder(raw, pub.value, console.c.kid, cert, now);
      if order.None? || order.value.id in movesDone { return None; }
      if SerialInForce(console.c, console.disk, pub.value, listReads) == 0 { return None; }
      if console.disk.stop.value.stopAll { return None; }
    }

    /** ... and was not carried out before, and the stop is off. */
    predicate Takes(raw: OrderBytes, keyReads: bool, listReads: bool, now: int)
      reads this, console
    {
      Accepts(raw, keyReads, now) && raw.order.id !in movesDone && Open(console.c, console.disk, listReads)
    }

    /** The order is one this server carries out: signed by the holder, for this certificate, now. */
    predicate Accepts(raw: OrderBytes, keyReads: bool, now: int)
      reads this, console
    {
      var pub := ReadKey(console.c, console.disk, keyReads);
      pub.Some? && raw.OrderOf? && ParseMoveOrder(raw, pub.value, console.c.kid, cert, now).Some?
    }
  }

  /** What is on the two records of an order that is carried out to the end: here the order, the release
      and the sending, in that order; there both files, the envelope kept under the escrow key the
      verified chip named. */
  predicate Recorded(order: MoveOrder, who: nat, here: ConsoleServer, there: ConsoleServer, reply: Option<Reply>,
                     challenge: nat, escrow: Key)
    reads here, there
  {
    && reply.Some? && Proves(reply.value, order.to.pin, challenge, order.to.cert)
    && reply.value.report.escrow == Pem(escrow)
    && order.bundle.BundleFile? && order.bundle in here.disk.genomes && here.disk.genomes[order.bundle].Bundle?
    && var (model, name) := (here.disk.genomes[order.bundle], EnvelopeFile(order.bundle.id));
    var release := Released(who, order.id, order.bundle, reply.value.evidence.measurement, escrow);
    && Before(here.journal, MoveOrdered(who, order.id, order.bundle), release)
    && Before(here.journal, release, Sent(who, order.id, order.bundle, DigestOf(model)))
    && FileOnRecord(order.bundle, model, there.journal)
    && FileOnRecord(name, Envelope(model.dek, escrow), there.journal)
    && name in there.disk.genomes && there.disk.genomes[name] == Envelope(model.dek, escrow)
  }

  lemma SendsMayLeave(wire: seq<Sending>, genomes: map<FileName, Blob>, who: nat, order: MoveOrder, reply: Reply,
                      challenge: nat, journal: seq<Record>, escrow: Key)
    requires Proves(reply, order.to.pin, challenge, order.to.cert)
    requires reply.report.escrow == Pem(escrow) && !reply.report.stopAll
    requires order.bundle.BundleFile? && order.bundle in genomes && genomes[order.bundle].Bundle?
    requires ReleaseOnRecord(journal, who, order, reply.evidence.measurement, escrow)
    requires SentOnly(wire, journal, order.bundle, genomes[order.bundle], Envelope(genomes[order.bundle].dek, escrow))
    ensures forall w | w in wire :: MayLeave(w, genomes, who, order, Some(reply), challenge)
  {
    var release := Released(who, order.id, order.bundle, reply.evidence.measurement, escrow);
    forall w | w in wire ensures MayLeave(w, genomes, who, order, Some(reply), challenge) {
      BeforeStays(journal, w.journal, MoveOrdered(who, order.id, order.bundle), release);
    }
  }
}
