/** The console's listener as the object it is: the handlers, each in the order its writes happen. */
module ConsoleServers {
  import opened Options
  import opened ConsoleSteps
  import opened ConsoleSafety
  import opened ConsoleTheorems

  /** Which write of a request does not simply happen. */
  datatype Fault = Fault(at: nat, how: Outcome) {
    function Out(i: nat): Outcome { if i == at then how else Happens }
  }

  /** The first n writes all happen. */
  predicate Clean(f: Fault, n: nat) { forall i: nat | i < n :: f.Out(i).Happens? }

  /** The code's invite names a role and is in its time. */
  predicate Redeemable(d: Disk, code: nat, now: int) {
    code in d.invites && d.invites[code].Invite? && now <= d.invites[code].expiresAt
  }

  /** Whoever joins as an owner while there is no operator key, as far as it can be stated, is given it. */
  predicate GivenStop(c: Config, d: Disk, role: Role, stats: bool) {
    role.Owner? && c.stopConfigured && stats && d.key.NoKey?
  }

  /** A join succeeds: the caller is listed already, or redeems an invite and every write happens. */
  predicate JoinSucceeds(c: Config, s: State, key: Key, code: nat, now: int, stats: bool, f: Fault) {
    || Lists(s.people, key)
    || (Redeemable(s.disk, code, now)
        && Clean(f, if GivenStop(c, s.disk, s.disk.invites[code].role, stats) then 4 else 3))
  }

  /** The place an invite gives. */
  function PlaceOf(invite: InviteFile, key: Key): Person
    requires invite.Invite?
  {
    Person(invite.name, invite.role, key, if invite.role.Peer? then Some(invite.expiresAt) else None)
  }

  /** Whether p is the holder of the operator key, as a read of the key file finds it. */
  predicate HoldsStop(c: Config, d: Disk, key: Key, keyReads: bool) {
    c.stopConfigured && keyReads && d.key == Holder(key)
  }

  /** The writes ws from the i-th on, up to the first that does not happen. */
  function Perform(s: State, ws: seq<Write>, f: Fault, i: nat): State
    decreases |ws| - i
  {
    if i >= |ws| then s
    else if f.Out(i).Happens? then Perform(Effect(s, ws[i], true), ws, f, i + 1)
    else Write1(s, ws[i], f.Out(i))
  }

  lemma PerformTwo(s: State, ws: seq<Write>, f: Fault)
    requires |ws| == 2
    ensures Perform(s, ws, f, 0) ==
            if f.Out(0).Happens? then Write1(Effect(s, ws[0], true), ws[1], f.Out(1)) else Write1(s, ws[0], f.Out(0))
  {
    PerformLast(Effect(s, ws[0], true), ws, f, 1);
  }

  lemma PerformLast(s: State, ws: seq<Write>, f: Fault, i: nat)
    requires |ws| == i + 1
    ensures Perform(s, ws, f, i) == Write1(s, ws[i], f.Out(i))
  {
    assert Perform(Effect(s, ws[i], true), ws, f, i + 1) == Effect(s, ws[i], true);
  }

  lemma PerformJoin(s: State, ws: seq<Write>, f: Fault)
    requires 3 <= |ws| <= 4
    ensures var (s1, s2) := (Effect(s, ws[0], true), Effect(Effect(s, ws[0], true), ws[1], true));
            Perform(s, ws, f, 0) ==
            if !f.Out(0).Happens? then Write1(s, ws[0], f.Out(0))
            else if !f.Out(1).Happens? then Write1(s1, ws[1], f.Out(1))
            else if |ws| == 3 || !f.Out(2).Happens? then Write1(s2, ws[2], f.Out(2))
            else Write1(Effect(s2, ws[2], true), ws[3], f.Out(3))
  {
    var s1 := Effect(s, ws[0], true);
    var s2 := Effect(s1, ws[1], true);
    if |ws| == 3 { PerformLast(s2, ws, f, 2); } else { PerformLast(Effect(s2, ws[2], true), ws, f, 3); }
    assert Perform(s, ws, f, 0) == if f.Out(0).Happens? then Perform(s1, ws, f, 1) else Write1(s, ws[0], f.Out(0));
    assert Perform(s1, ws, f, 1) == if f.Out(1).Happens? then Perform(s2, ws, f, 2) else Write1(s1, ws[1], f.Out(1));
  }

  datatype Response =
    | Refused           // nothing was decided
    | Unavailable       // the record could not be written
    | NotWritten        // a later write failed
    | Gone              // the process is gone
    | Accepted

  class ConsoleServer {
    const c: Config

    var disk: Disk
    var journal: seq<Record>
    var up: bool
    var people: seq<Person>
    var desk: seq<Write>   // what a handler in flight under the people lock has still to write
    var door: seq<Write>   // ... and one under the move lock
    var past: Past

    function Machine(): State
      reads this
    {
      State(disk, journal, up, people, desk, door, past)
    }

    constructor (c: Config, disk: Disk)
      ensures this.c == c && Machine() == State(disk, [], false, [], [], [], Past({}, [], []))
    {
      this.c, this.disk, journal, up, people := c, disk, [], false, [];
      desk, door, past := [], [], Past({}, [], []);
    }

    /** Whatever else happens at this server: other handlers, failures, restarts. */
    method Meanwhile(run: seq<Action>)
      modifies this
      ensures Machine() == Run(c, old(Machine()), run)
    {
      var s := Run(c, Machine(), run);
      disk, journal, up, people, desk, door, past := s.disk, s.journal, s.up, s.people, s.desk, s.door, s.past;
    }

    method Die()
      modifies this
      ensures Machine() == Down(old(Machine()))
    {
      up, people, desk, door := false, [], [], [];
    }

    // ----- The writes -----

    /** One write: to the chain, or to a file with what follows it in memory once it is known to
        have happened. */
    method Make(w: Write, o: Outcome) returns (ok: bool)
      modifies this
      ensures Machine() == Write1(old(Machine()), w, o) && ok == o.Happens?
    {
      ok := o.Happens?;
      if ok || o.done {
        match w {
          case Emit(record) => journal := journal + [record];
          case DropInvite(code) => disk := disk.(invites := disk.invites - {code});
          case SaveInvite(code, invite) => disk := disk.(invites := disk.invites[code := invite]);
          case GiveKey(key) => disk := disk.(key := Holder(key));
          case SavePeople(saved, admission) =>
            disk := disk.(people := saved);
            if ok { people := saved; }
            if admission.Some? { past := past.(admissions := past.admissions + [admission.value]); }
          case SaveStop(list) => disk, past := disk.(stop := Some(list)), past.(lists := past.lists + [list]);
          case KeepFile(name, blob) => disk := disk.(genomes := disk.genomes[name := blob]);
        }
      }
      if o.Dies? { Die(); }
    }

    /** A record of a move: nothing but the chain changes, or the process is gone. */
    method Note(record: Record, o: Outcome) returns (ok: bool)
      requires up
      modifies this
      ensures disk == old(disk) && ok == o.Happens? && (up <==> !o.Dies?)
      ensures ok ==> journal == old(journal) + [record]
      ensures old(journal) <= journal
      ensures up ==> people == old(people) && desk == old(desk) && door == old(door) && past == old(past)
      ensures old(Inv(Machine())) ==> Inv(Machine())
    {
      NoteWrite(Machine(), record, o);
      ok := Make(Emit(record), o);
    }

    // ----- Who is admitted -----

    /** lookup: the first on the list with that key, unless its place has expired. */
    method Lookup(key: Key, now: int) returns (found: Option<Person>)
      ensures PeopleGood(people, journal) ==>
                (found.Some? <==> exists p :: p in people && p.key == key && !Expired(p, now))
      ensures found.Some? ==>
                && found.value in people && found.value.key == key
                && (found.value.expiresAt.Some? ==> now <= found.value.expiresAt.value)
    {
      for i := 0 to |people|
        invariant forall j | 0 <= j < i :: people[j].key != key
      {
        if people[i].key == key {
          forall p | PeopleGood(people, journal) && p in people && p.key == key ensures p == people[i] {
            var j :| 0 <= j < |people| && people[j] == p;
            assert !(i < j) && !(j < i);
          }
          return if Expired(people[i], now) then None else Some(people[i]);
        }
      }
      found := None;
    }

    /** listed: a caller whose key is on the list, in its time, with at least the role min. */
    method Admit(key: Key, min: Role, now: int) returns (admitted: Option<Person>)
      ensures admitted.Some? ==>
                && admitted.value in people && admitted.value.key == key
                && !Expired(admitted.value, now) && Allows(admitted.value.role, min)
      ensures PeopleGood(people, journal) ==>
                (admitted.Some? <==> exists p :: p in people && p.key == key && !Expired(p, now) && Allows(p.role, min))
    {
      admitted := Lookup(key, now);
      if PeopleGood(people, journal) && admitted.Some? { OneHolds(people, admitted.value); }
      if admitted.Some? && !Allows(admitted.value.role, min) { admitted := None; }
    }

    // ----- The handlers -----

    /** handleJoin: the caller's key goes on the list under the name and role the invite says, and
        the code is dead; the first owner is given the operator key. */
    method HandleJoin(key: Key, code: nat, now: int, stats: bool, f: Fault) returns (resp: Response)
      requires up && desk == []
      modifies this
      ensures Machine() == Perform(old(Machine()), JoinWrites(c, old(Machine()), key, code, now, stats), f, 0)
      ensures resp.Accepted? <==> JoinSucceeds(c, old(Machine()), key, code, now, stats, f)
      ensures resp.Accepted? ==> Lists(people, key)
      ensures old(Lists(people, key)) ==> Machine() == old(Machine())
      ensures resp.Unavailable? ==> disk == old(disk) && people == old(people)
      ensures resp.Refused? ==> people == old(people) && journal == old(journal)
      ensures old(!Lists(people, key) && code in disk.invites && disk.invites[code].Invite?
                  && now > disk.invites[code].expiresAt) && f.Out(0).Happens? ==>
                resp.Refused? && disk == old(disk).(invites := old(disk.invites) - {code})
      ensures resp.Gone? <==> !up
      ensures resp.Accepted? && old(disk.key.NoKey?) && !disk.key.NoKey? ==> HolderListed(Machine(), key)
      ensures resp.Accepted? && !old(Lists(people, key)) ==>
                && code in old(disk.invites) && old(disk.invites)[code].Invite? && code !in disk.invites
                && var inv := old(disk.invites)[code];
                && now <= inv.expiresAt
                && var gives := old(GivenStop(c, disk, inv.role, stats));
                && journal == old(journal) + [Joined(inv.name, inv.role, key, gives)]
                && disk.key == (if gives then Holder(key) else old(disk.key))
                && people == disk.people == old(people) + [PlaceOf(inv, key)]
                && (up, desk, door, disk.genomes) == old((up, desk, door, disk.genomes))
    {
      for i := 0 to |people|
        invariant forall j | 0 <= j < i :: people[j].key != key
        invariant Machine() == old(Machine())
      {
        if people[i].key == key { return Accepted; }
      }
      if code !in disk.invites || disk.invites[code].Garbled? { return Refused; }
      var inv := disk.invites[code];
      if now > inv.expiresAt {
        var removed := Make(DropInvite(code), f.Out(0));
        return if up then Refused else Gone;
      }
      var holdsStop := inv.role.Owner? && c.stopConfigured && stats && disk.key.NoKey?;
      var person := Person(inv.name, inv.role, key, if inv.role.Peer? then Some(inv.expiresAt) else None);
      resp := Redeem(person, code, holdsStop, f);
    }

    /** The writes of a join, once it is decided. */
    method Redeem(person: Person, code: nat, holdsStop: bool, f: Fault) returns (resp: Response)
      requires up && desk == [] && (holdsStop ==> disk.key.NoKey?)
      modifies this
      ensures var ws := [Emit(Joined(person.name, person.role, person.key, holdsStop)), DropInvite(code)]
                        + (if holdsStop then [GiveKey(person.key)] else [])
                        + [SavePeople(old(people) + [person], Some(Admission(code, person)))];
              Machine() == Perform(old(Machine()), ws, f, 0)
      ensures resp.Accepted? ==> people == disk.people == old(people) + [person] && desk == [] && code !in disk.invites
      ensures resp.Accepted? ==> disk.key == if holdsStop then Holder(person.key) else old(disk.key)
      ensures resp.Accepted? ==>
                && journal == old(journal) + [Joined(person.name, person.role, person.key, holdsStop)]
                && up && door == old(door) && disk.genomes == old(disk.genomes)
      ensures !resp.Refused? && (resp.Gone? <==> !up)
      ensures resp.Unavailable? ==> disk == old(disk) && people == old(people)
      ensures resp.Accepted? <==> Clean(f, if holdsStop then 4 else 3)
    {
      ghost var s, ws := Machine(), [Emit(Joined(person.name, person.role, person.key, holdsStop)), DropInvite(code)]
                        + (if holdsStop then [GiveKey(person.key)] else [])
                        + [SavePeople(people + [person], Some(Admission(code, person)))];
      PerformJoin(s, ws, f);
      var ok := Make(Emit(Joined(person.name, person.role, person.key, holdsStop)), f.Out(0));
      if !ok { return if up then Unavailable else Gone; }
      ok := Make(DropInvite(code), f.Out(1));
      if !ok { return if up then NotWritten else Gone; }
      var i := 2;
      if holdsStop {
        ok := Make(GiveKey(person.key), f.Out(2));
        if !ok { return if up then NotWritten else Gone; }
        i := 3;
      }
      ok := Make(SavePeople(people + [person], Some(Admission(code, person))), f.Out(i));
      if !ok { return if up then NotWritten else Gone; }
      resp := Accepted;
    }

    /** handleStop: a list signed by the holder and newer than the one in force. */
    method HandleStop(who: nat, list: ListBytes, keyReads: bool, listReads: bool, f: Fault) returns (resp: Response)
      requires up && desk == []
      modifies this
      ensures Machine() == Perform(old(Machine()), StopWrites(c, old(Machine()), who, list, keyReads, listReads), f, 0)
      ensures resp.Refused? <==> StopWrites(c, old(Machine()), who, list, keyReads, listReads) == []
      ensures resp.Unavailable? ==> disk == old(disk) && people == old(people)
      ensures resp.Accepted? <==>
                && c.stopConfigured && keyReads && Loads(c, old(Machine()), list)
                && list.serial > SerialInForce(c, old(disk), old(disk.key.key), listReads)
                && Clean(f, 2)
      ensures resp.Accepted? ==> list.serial > 0 && list.kid == c.kid && old(disk.key) == Holder(list.signer)
      ensures resp.Accepted? ==>
                && disk == old(disk).(stop := Some(list)) && past.lists == old(past.lists) + [list]
                && var action := StopAct(list, SerialInForce(c, old(disk), old(disk.key.key), listReads));
                journal == old(journal)
                           + [StopChanged(who, action, list.serial, list.stopAll, DigestOfList(list))]
      ensures resp.Gone? <==> !up
    {
      var pub := ReadKey(c, disk, keyReads);
      if pub.None? || pub.value.suite !in c.suites || !Parses(c, list, pub.value) { return Refused; }
      var current := SerialInForce(c, disk, pub.value, listReads);
      if list.serial <= current { return Refused; }
      PerformTwo(Machine(), StopWrites(c, Machine(), who, list, keyReads, listReads), f);
      var action := if list.stopAll then StopSet else if current == 0 then StopReady else StopLifted;
      var ok := Make(Emit(StopChanged(who, action, list.serial, list.stopAll, DigestOfList(list))), f.Out(0));
      if !ok { return if up then Unavailable else Gone; }
      ok := Make(SaveStop(list), f.Out(1));
      if !ok { return if up then NotWritten else Gone; }
      resp := Accepted;
    }

    /** handleInvite: a code no one has had before. */
    method HandleInvite(who: nat, code: nat, name: nat, role: Role, expiresAt: int, f: Fault) returns (resp: Response)
      requires up && desk == [] && code !in past.codes
      modifies this
      ensures var s := old(Machine());
              Machine() == Perform(s.(past := s.past.(codes := s.past.codes + {code})),
                                   InviteWrites(who, code, name, role, expiresAt), f, 0)
      ensures resp.Accepted? <==> Clean(f, 2)
      ensures resp.Unavailable? ==> disk == old(disk) && people == old(people)
      ensures !resp.Refused?
      ensures resp.Accepted? ==>
                && disk == old(disk).(invites := old(disk.invites)[code := Invite(name, role, expiresAt)])
                && journal == old(journal) + [InviteMade(who, name, role)]
      ensures resp.Gone? <==> !up
    {
      past := past.(codes := past.codes + {code});
      PerformTwo(Machine(), InviteWrites(who, code, name, role, expiresAt), f);
      var ok := Make(Emit(InviteMade(who, name, role)), f.Out(0));
      if !ok { return if up then Unavailable else Gone; }
      ok := Make(SaveInvite(code, Invite(name, role, expiresAt)), f.Out(1));
      if !ok { return if up then NotWritten else Gone; }
      resp := Accepted;
    }

    method LastPlace(key: Key) returns (idx: int)
      ensures idx == LastOf(people, key)
      ensures idx < 0 <==> !Lists(people, key)
    {
      idx := -1;
      for i := 0 to |people|
        invariant -1 <= idx < i && (idx >= 0 ==> people[idx].key == key)
        invariant forall j | idx < j < i :: people[j].key != key
      {
        if people[i].key == key { idx := i; }
      }
    }

    /** handleRemove: the last place on the list with that key, unless it is the holder's. */
    method HandleRemove(who: nat, key: Key, keyReads: bool, f: Fault) returns (resp: Response)
      requires up && desk == []
      modifies this
      ensures Machine() == Perform(old(Machine()), RemoveWrites(c, old(Machine()), who, key, keyReads), f, 0)
      ensures resp.Refused? <==> !old(Lists(people, key)) || HoldsStop(c, old(disk), key, keyReads)
      ensures resp.Unavailable? ==> disk == old(disk) && people == old(people)
      ensures resp.Accepted? <==> !resp.Refused? && Clean(f, 2)
      ensures resp.Accepted? ==>
                && people == disk.people && (old(PeopleGood(people, journal)) ==> Without(people, old(people), key))
                && RemovalRecorded(journal, old(journal), who, old(people), key)
      ensures resp.Gone? <==> !up
    {
      var holder := ReadKey(c, disk, keyReads);
      if holder == Some(key) { return Refused; }
      var idx := LastPlace(key);
      if idx < 0 { return Refused; }
      resp := TakeOff(who, key, idx, keyReads, f);
    }

    /** ... its two writes. */
    method TakeOff(who: nat, key: Key, idx: nat, ghost keyReads: bool, f: Fault) returns (resp: Response)
      requires up && desk == [] && ReadKey(c, disk, keyReads) != Some(key) && idx == LastOf(people, key)
      modifies this
      ensures Machine() == Perform(old(Machine()), RemoveWrites(c, old(Machine()), who, key, keyReads), f, 0)
      ensures (resp.Accepted? <==> Clean(f, 2)) && (resp.Gone? <==> !up) && !resp.Refused?
      ensures resp.Unavailable? ==> disk == old(disk) && people == old(people)
      ensures resp.Accepted? ==>
                && people == disk.people && (old(PeopleGood(people, journal)) ==> Without(people, old(people), key))
                && RemovalRecorded(journal, old(journal), who, old(people), key)
    {
      var p, rest := people[idx], people[..idx] + people[idx + 1..];
      WithoutIs(people, idx, journal);
      assert RemovalRecorded(journal + [Removed(who, p.name, p.role, key)], journal, who, people, key);
      PerformTwo(Machine(), RemoveWrites(c, Machine(), who, key, keyReads), f);
      var ok := Make(Emit(Removed(who, p.name, p.role, key)), f.Out(0));
      if !ok { return if up then Unavailable else Gone; }
      ok := Make(SavePeople(rest, None), f.Out(1));
      if !ok { return if up then NotWritten else Gone; }
      resp := Accepted;
    }

    /** handleIncoming: a sealed model or its envelope, arrived whole and with the hash its sender
        stated, under a name not here yet as far as it can be stated. */
    method HandleIncoming(
      peer: Person, name: FileName, arrived: Option<Blob>, stated: Option<Digest>, stats: bool, f: Fault)
      returns (resp: Response)
      requires up && door == []
      modifies this
      ensures Machine() == Perform(old(Machine()),
                                   IncomingWrites(old(Machine()), peer, name, arrived, stated, stats), f, 0)
      ensures !resp.Refused? <==>
                && (peer.role.Peer? || peer.role.Owner?) && ValidName(name)
                && (stats ==> name !in old(disk.genomes))
                && arrived.Some? && stated == Some(DigestOf(arrived.value))
      ensures resp.Unavailable? ==> disk == old(disk) && people == old(people)
      ensures resp.Accepted? <==> !resp.Refused? && Clean(f, 2)
      ensures resp.Accepted? ==>
                Machine() == old(Machine()).(
                  disk := old(disk).(genomes := old(disk.genomes)[name := arrived.value]),
                  journal := old(journal) + [Received(peer.name, name, stated.value)])
      ensures resp.Gone? <==> !up
    {
      if !(peer.role.Peer? || peer.role.Owner?) { return Refused; }
      if !ValidName(name) || stated.None? { return Refused; }
      if stats && name in disk.genomes { return Refused; }
      if arrived.None? { return Refused; }
      var got := DigestOf(arrived.value);
      if got != stated.value { return Refused; }
      PerformTwo(Machine(), IncomingWrites(Machine(), peer, name, arrived, stated, stats), f);
      var ok := Make(Emit(Received(peer.name, name, got)), f.Out(0));
      if !ok { return if up then Unavailable else Gone; }
      ok := Make(KeepFile(name, arrived.value), f.Out(1));
      if !ok { return if up then NotWritten else Gone; }
      resp := Accepted;
    }
  }

  /** rest is everybody in people but whoever has that key. */
  predicate Without(rest: seq<Person>, people: seq<Person>, key: Key) {
    && (forall p | p in rest :: p in people && p.key != key)
    && (forall p | p in people && p.key != key :: p in rest)
  }

  /** The one new record is of the removal of somebody listed with that key. */
  predicate RemovalRecorded(journal': seq<Record>, journal: seq<Record>, who: nat, people: seq<Person>, key: Key) {
    exists p | p in people :: p.key == key && journal' == journal + [Removed(who, p.name, p.role, key)]
  }

  /** With distinct keys, the list without one place is everybody else. */
  lemma WithoutIs(people: seq<Person>, i: nat, journal: seq<Record>)
    requires i < |people|
    ensures PeopleGood(people, journal) ==> Without(people[..i] + people[i + 1..], people, people[i].key)
  {
    var rest := people[..i] + people[i + 1..];
    StaysOrLeaves(people, i);
    if PeopleGood(people, journal) {
      WithoutGood(people, i, journal);
      OneHolds(people, people[i]);
      forall p | p in rest ensures p.key != people[i].key {
        assert Lists(rest, people[i].key) || p.key != people[i].key;
      }
    }
  }

  lemma OneHolds(people: seq<Person>, p: Person)
    requires Distinct(people) && p in people
    ensures forall q | q in people && q.key == p.key :: q == p
  {
    forall q | q in people && q.key == p.key ensures q == p {
      var i :| 0 <= i < |people| && people[i] == p;
      var j :| 0 <= j < |people| && people[j] == q;
      assert !(i < j) && !(j < i);
    }
  }

  lemma NoteWrite(s: State, record: Record, o: Outcome)
    requires s.up
    ensures Inv(s) ==> Inv(Write1(s, Emit(record), o))
  {
    if Inv(s) {
      NoteKeeps(s, record);
      StepKeeps(Config(false, 0, {}), s, Crash);
      StepKeeps(Config(false, 0, {}), s.(journal := s.journal + [record]), Crash);
    }
  }

  predicate Expired(p: Person, now: int) { p.expiresAt.Some? && now > p.expiresAt.value }

  // ----- A handler is a run of the steps -----

  /** What happens to the writes of a request, one after the other. */
  function Outcomes(n: nat, f: Fault, i: nat): seq<Outcome>
    decreases n - i
  {
    if i >= n then []
    else if f.Out(i).Happens? then [Happens] + Outcomes(n, f, i + 1)
    else [f.Out(i)]
  }

  function AtDesk(outcomes: seq<Outcome>): seq<Action>
  {
    seq(|outcomes|, i requires 0 <= i < |outcomes| => Desk(outcomes[i]))
  }

  function AtDoor(outcomes: seq<Outcome>): seq<Action>
  {
    seq(|outcomes|, i requires 0 <= i < |outcomes| => Door(outcomes[i]))
  }

  /** A handler under the people lock is its request and then its writes, a run of the steps. */
  lemma HandlerIsRun(c: Config, s: State, q: Request, f: Fault)
    requires s.up && s.desk == [] && !q.Incoming?
    ensures var begun := Begun(c, s, q);
            Run(c, s, [Begin(q)] + AtDesk(Outcomes(|begun.desk|, f, 0)))
            == Perform(begun.(desk := []), begun.desk, f, 0)
  {
    var begun := Begun(c, s, q);
    RunFirst(c, s, Begin(q), AtDesk(Outcomes(|begun.desk|, f, 0)));
    assert begun.desk[0..] == begun.desk;
    assert begun == begun.(desk := []).(desk := begun.desk[0..]);
    DeskIsRun(c, begun.(desk := []), begun.desk, f, 0);
  }

  lemma {:induction false} DeskIsRun(c: Config, s: State, ws: seq<Write>, f: Fault, i: nat)
    requires s.up && s.desk == [] && i <= |ws|
    ensures Run(c, s.(desk := ws[i..]), AtDesk(Outcomes(|ws|, f, i))) == Perform(s, ws, f, i)
    decreases |ws| - i
  {
    var outcomes := Outcomes(|ws|, f, i);
    if i < |ws| {
      var s0, s1 := s.(desk := ws[i..]), s.(desk := if f.Out(i).Happens? then ws[i + 1..] else []);
      assert ws[i..][1..] == ws[i + 1..];
      assert AtDesk(outcomes) == [Desk(f.Out(i))] + AtDesk(outcomes[1..]);
      RunFirst(c, s0, Desk(f.Out(i)), AtDesk(outcomes[1..]));
      assert Step(c, s0, Desk(f.Out(i))) == Write1(s1, ws[i], f.Out(i));
      EffectAside(s, ws[i + 1..], ws[i], true);
      if f.Out(i).Happens? {
        DeskIsRun(c, Effect(s, ws[i], true), ws, f, i + 1);
        assert outcomes[1..] == Outcomes(|ws|, f, i + 1);
      }
    }
  }

  /** ... and one under the move lock. */
  lemma IncomingIsRun(c: Config, s: State, q: Request, f: Fault)
    requires s.up && s.door == [] && q.Incoming?
    ensures var ws := IncomingWrites(s, q.peer, q.file, q.arrived, q.stated, q.stats);
            Run(c, s, [Begin(q)] + AtDoor(Outcomes(|ws|, f, 0))) == Perform(s, ws, f, 0)
  {
    var ws := IncomingWrites(s, q.peer, q.file, q.arrived, q.stated, q.stats);
    RunFirst(c, s, Begin(q), AtDoor(Outcomes(|ws|, f, 0)));
    assert ws[0..] == ws;
    assert s == s.(door := []);
    DoorIsRun(c, s, ws, f, 0);
  }

  lemma {:induction false} DoorIsRun(c: Config, s: State, ws: seq<Write>, f: Fault, i: nat)
    requires s.up && s.door == [] && i <= |ws|
    ensures Run(c, s.(door := ws[i..]), AtDoor(Outcomes(|ws|, f, i))) == Perform(s, ws, f, i)
    decreases |ws| - i
  {
    var outcomes := Outcomes(|ws|, f, i);
    if i < |ws| {
      var s0, s1 := s.(door := ws[i..]), s.(door := if f.Out(i).Happens? then ws[i + 1..] else []);
      assert ws[i..][1..] == ws[i + 1..];
      assert AtDoor(outcomes) == [Door(f.Out(i))] + AtDoor(outcomes[1..]);
      RunFirst(c, s0, Door(f.Out(i)), AtDoor(outcomes[1..]));
      assert Step(c, s0, Door(f.Out(i))) == Write1(s1, ws[i], f.Out(i));
      if f.Out(i).Happens? {
        DoorIsRun(c, Effect(s, ws[i], true), ws, f, i + 1);
        assert outcomes[1..] == Outcomes(|ws|, f, i + 1);
      }
    }
  }
}
