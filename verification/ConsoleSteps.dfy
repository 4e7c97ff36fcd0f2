/** The console's listener as a step system: what a request decides to write, and the writes one at
    a time, any of which may fail or be the last thing the process does. */
module ConsoleSteps {
  import opened Options

  // ----- People, invites, files -----

  datatype Role = Viewer | Operator | Owner | Peer

  predicate Allows(r: Role, min: Role) {
    match min
    case Owner => r.Owner?
    case Operator => r.Operator? || r.Owner?
    case Viewer => !r.Peer?
    case Peer => true
  }

  /** A public key and the suite it is of. */
  datatype Key = Key(suite: nat, id: nat)

  datatype Person = Person(name: nat, role: Role, key: Key, expiresAt: Option<int>)

  /** An invite's file; one that does not parse, or names no role, is garbled. */
  datatype InviteFile = Garbled | Invite(name: nat, role: Role, expiresAt: int)

  datatype KeyFile = NoKey | NotAKey | Holder(key: Key)

  /** The bytes of a stop list, by what they parse as: who signed them, as what, and the rest. */
  datatype ListBytes = NotAList(id: nat) | StopList(serial: nat, stopAll: bool, kid: nat, signer: Key, rest: nat)

  /** The name of a file in the genome directory. */
  datatype FileName = BundleFile(id: nat) | EnvelopeFile(id: nat) | KeyFileFor(id: nat) | OtherFile(id: nat)

  /** A bundle names the key it is sealed under by that key's own hash. */
  datatype Blob =
    | Bundle(dek: nat, body: nat)
    | Envelope(dek: nat, escrow: Key)
    | RawKey(dek: nat)
    | Other(id: nat)

  /** SHA-256 of a file's bytes, ideal. */
  datatype Digest = DigestOf(blob: Blob) | DigestOfList(list: ListBytes)

  // ----- The audit chain, as the console writes it -----

  datatype StopAction = StopSet | StopReady | StopLifted

  datatype Record =
    | Joined(name: nat, role: Role, key: Key, holdsStop: bool)
    | Removed(who: nat, name: nat, role: Role, key: Key)
    | InviteMade(who: nat, name: nat, role: Role)
    | StopChanged(who: nat, action: StopAction, serial: nat, stopAll: bool, digest: Digest)
    | Received(who: nat, file: FileName, digest: Digest)
    | MoveOrdered(who: nat, order: nat, bundle: FileName)
    | Released(who: nat, order: nat, bundle: FileName, measurement: nat, escrow: Key)
    | Sent(who: nat, order: nat, bundle: FileName, digest: Digest)

  // ----- State -----

  datatype Disk = Disk(
    people: seq<Person>, invites: map<nat, InviteFile>, key: KeyFile, stop: Option<ListBytes>,
    genomes: map<FileName, Blob>)

  /** An invite redeemed for a place on the list. */
  datatype Admission = Admission(code: nat, person: Person)

  /** One write of a request: to the chain, or to a file with what follows it in memory. */
  datatype Write =
    | Emit(record: Record)
    | DropInvite(code: nat)
    | SaveInvite(code: nat, invite: InviteFile)
    | GiveKey(key: Key)
    | SavePeople(people: seq<Person>, admission: Option<Admission>)
    | SaveStop(list: ListBytes)
    | KeepFile(name: FileName, blob: Blob)

  /** What has happened: the codes ever made, the admissions, the stop lists written. */
  datatype Past = Past(codes: set<nat>, admissions: seq<Admission>, lists: seq<ListBytes>)

  /** desk is what the holder of the people lock still has to write, door the holder of the move
      lock; the two locks are independent. */
  datatype State = State(
    disk: Disk, journal: seq<Record>, up: bool, people: seq<Person>, desk: seq<Write>, door: seq<Write>, past: Past)

  datatype Config = Config(stopConfigured: bool, kid: nat, suites: set<nat>)

  // ----- What a request decides -----

  predicate Lists(people: seq<Person>, key: Key) { exists p | p in people :: p.key == key }

  function KeysOf(people: seq<Person>): seq<Key> {
    if people == [] then [] else KeysOf(people[..|people| - 1]) + [people[|people| - 1].key]
  }

  /** The key file as a read finds it. */
  function ReadKey(c: Config, d: Disk, readable: bool): Option<Key> {
    if c.stopConfigured && readable && d.key.Holder? then Some(d.key.key) else None
  }

  /** revocation.Parse. */
  predicate Parses(c: Config, list: ListBytes, key: Key) {
    list.StopList? && list.serial > 0 && list.kid == c.kid && list.signer == key
  }

  /** The serial in force: that of the list on disk, if it can be loaded. */
  function SerialInForce(c: Config, d: Disk, key: Key, readable: bool): nat {
    if readable && key.suite in c.suites && d.stop.Some? && Parses(c, d.stop.value, key) then d.stop.value.serial else 0
  }

  function JoinWrites(c: Config, s: State, key: Key, code: nat, now: int, stats: bool): seq<Write> {
    if Lists(s.people, key) || code !in s.disk.invites then []
    else
      match s.disk.invites[code]
      case Garbled => []
      case Invite(name, role, expiresAt) =>
        if now > expiresAt then [DropInvite(code)]
        else
          var holdsStop := role.Owner? && c.stopConfigured && stats && s.disk.key.NoKey?;
          var person := Person(name, role, key, if role.Peer? then Some(expiresAt) else None);
          [Emit(Joined(name, role, key, holdsStop)), DropInvite(code)]
          + (if holdsStop then [GiveKey(key)] else [])
          + [SavePeople(s.people + [person], Some(Admission(code, person)))]
  }

  function StopAct(list: ListBytes, current: nat): StopAction
    requires list.StopList?
  {
    if list.stopAll then StopSet else if current == 0 then StopReady else StopLifted
  }

  function StopWrites(c: Config, s: State, who: nat, list: ListBytes, keyReads: bool, listReads: bool): seq<Write> {
    var key := ReadKey(c, s.disk, keyReads);
    if key.None? || key.value.suite !in c.suites || !Parses(c, list, key.value) then []
    else
      var current := SerialInForce(c, s.disk, key.value, listReads);
      if list.serial <= current then []
      else
        [Emit(StopChanged(who, StopAct(list, current), list.serial, list.stopAll, DigestOfList(list))), SaveStop(list)]
  }

  /** The last place on the list that holds the key. */
  function LastOf(people: seq<Person>, key: Key): (i: int)
    ensures -1 <= i < |people|
    ensures i >= 0 ==> people[i].key == key
    ensures forall j | i < j < |people| :: people[j].key != key
  {
    if people == [] then -1
    else if people[|people| - 1].key == key then |people| - 1
    else LastOf(people[..|people| - 1], key)
  }

  function RemoveWrites(c: Config, s: State, who: nat, key: Key, keyReads: bool): seq<Write> {
    var i := LastOf(s.people, key);
    if ReadKey(c, s.disk, keyReads) == Some(key) || i < 0 then []
    else
      [Emit(Removed(who, s.people[i].name, s.people[i].role, key)),
       SavePeople(s.people[..i] + s.people[i + 1..], None)]
  }

  function InviteWrites(who: nat, code: nat, name: nat, role: Role, expiresAt: int): seq<Write> {
    [Emit(InviteMade(who, name, role)), SaveInvite(code, Invite(name, role, expiresAt))]
  }

  /** A sealed model's file name, or that of its envelope. */
  predicate ValidName(name: FileName) { name.BundleFile? || name.EnvelopeFile? }

  /** A name already here is refused, if the file of that name can be stated. */
  function IncomingWrites(
    s: State, who: Person, name: FileName, arrived: Option<Blob>, stated: Option<Digest>, stats: bool): seq<Write>
  {
    if !(who.role.Peer? || who.role.Owner?) || !ValidName(name) || stated.None? then []
    else if stats && name in s.disk.genomes then []
    else if arrived.None? || DigestOf(arrived.value) != stated.value then []
    else [Emit(Received(who.name, name, stated.value)), KeepFile(name, arrived.value)]
  }

  // ----- Steps -----

  /** keyReads, listReads and stats say whether that file can be read at that moment. */
  datatype Request =
    | Join(key: Key, code: nat, now: int, stats: bool)
    | Stop(who: nat, list: ListBytes, keyReads: bool, listReads: bool)
    | MakeInvite(who: nat, code: nat, name: nat, role: Role, expiresAt: int)
    | Remove(who: nat, key: Key, keyReads: bool)
    | Incoming(peer: Person, file: FileName, arrived: Option<Blob>, stated: Option<Digest>, stats: bool)

  /** A write happens; or it fails, done all the same or not; or the process dies at it. */
  datatype Outcome = Happens | Fails(done: bool) | Dies(done: bool)

  datatype Action =
    | Begin(request: Request)
    | Desk(outcome: Outcome)
    | Door(outcome: Outcome)
    | Note(record: Record)                    // the chain's other records, of orders and their moves
    | Place(code: nat, invite: InviteFile)    // the operator's own invites
    | Start
    | Crash

  /** The bytes and records a write leaves; sure is whether the handler learns of it. */
  function Effect(s: State, w: Write, sure: bool): State {
    var d := s.disk;
    match w
    case Emit(record) => s.(journal := s.journal + [record])
    case DropInvite(code) => s.(disk := d.(invites := d.invites - {code}))
    case SaveInvite(code, invite) => s.(disk := d.(invites := d.invites[code := invite]))
    case GiveKey(key) => s.(disk := d.(key := Holder(key)))
    case SavePeople(people, admission) =>
      s.(disk := d.(people := people),
         people := if sure then people else s.people,
         past := if admission.Some? then s.past.(admissions := s.past.admissions + [admission.value]) else s.past)
    case SaveStop(list) => s.(disk := d.(stop := Some(list)), past := s.past.(lists := s.past.lists + [list]))
    case KeepFile(name, blob) => s.(disk := d.(genomes := d.genomes[name := blob]))
  }

  function Down(s: State): State { s.(up := false, people := [], desk := [], door := []) }

  /** The write at the head of a lock holder's list. */
  function Write1(s: State, w: Write, o: Outcome): State {
    match o
    case Happens => Effect(s, w, true)
    case Fails(done) => if done then Effect(s, w, false) else s
    case Dies(done) => Down(if done then Effect(s, w, false) else s)
  }

  function Begun(c: Config, s: State, q: Request): State {
    match q
    case Incoming(peer, name, arrived, stated, stats) =>
      if s.door != [] then s else s.(door := IncomingWrites(s, peer, name, arrived, stated, stats))
    case _ =>
      if s.desk != [] then s
      else
        match q
        case Join(key, code, now, stats) => s.(desk := JoinWrites(c, s, key, code, now, stats))
        case Stop(who, list, keyReads, listReads) => s.(desk := StopWrites(c, s, who, list, keyReads, listReads))
        case MakeInvite(who, code, name, role, expiresAt) =>
          if code in s.past.codes then s
          else s.(desk := InviteWrites(who, code, name, role, expiresAt),
                  past := s.past.(codes := s.past.codes + {code}))
        case Remove(who, key, keyReads) => s.(desk := RemoveWrites(c, s, who, key, keyReads))
        case _ => s
  }

  /** What an action does to a process that is up. */
  function Act(c: Config, s: State, a: Action): State {
    match a
    case Begin(q) => Begun(c, s, q)
    case Desk(o) =>
      if s.desk == [] then s else Write1(s.(desk := if o.Happens? then s.desk[1..] else []), s.desk[0], o)
    case Door(o) =>
      if s.door == [] then s else Write1(s.(door := if o.Happens? then s.door[1..] else []), s.door[0], o)
    case Note(record) =>
      if record.MoveOrdered? || record.Released? || record.Sent? then s.(journal := s.journal + [record]) else s
    case Crash => Down(s)
    case _ => s
  }

  function Step(c: Config, s: State, a: Action): State {
    match a
    case Start => if s.up then s else s.(up := true, people := s.disk.people)
    case Place(code, invite) =>
      if code in s.past.codes then s
      else s.(disk := s.disk.(invites := s.disk.invites[code := invite]),
              past := s.past.(codes := s.past.codes + {code}))
    case _ => if s.up then Act(c, s, a) else s
  }

  function Run(c: Config, s: State, run: seq<Action>): State {
    if run == [] then s else Step(c, Run(c, s, run[..|run| - 1]), run[|run| - 1])
  }

  /** An authority on which nobody has joined yet, with whatever genomes and key file it holds. */
  predicate Empty(s: State) {
    && !s.up && s.people == [] && s.disk.people == [] && s.desk == [] && s.door == []
    && s.disk.invites == map[] && s.disk.stop.None? && s.past == Past({}, [], [])
  }
}
