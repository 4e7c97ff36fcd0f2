/** What every step of the console keeps, under any interleaving of its handlers and any failure:
    the record comes before the effect, keys stay distinct, an invite is redeemed at most once. */
module ConsoleSafety {
  import opened Options
  import opened ConsoleSteps

  // ----- On the record -----

  predicate JoinedOnRecord(p: Person, journal: seq<Record>) {
    Joined(p.name, p.role, p.key, true) in journal || Joined(p.name, p.role, p.key, false) in journal
  }

  predicate AllJoined(people: seq<Person>, journal: seq<Record>) {
    forall p | p in people :: JoinedOnRecord(p, journal)
  }

  predicate Distinct(people: seq<Person>) {
    forall i, j | 0 <= i < j < |people| :: people[i].key != people[j].key
  }

  predicate Names(rec: Record, list: ListBytes) {
    list.StopList? && rec.StopChanged? && rec.serial == list.serial && rec.stopAll == list.stopAll
    && rec.digest == DigestOfList(list)
    && (rec.action.StopSet? <==> list.stopAll)
  }

  predicate StopOnRecord(list: ListBytes, journal: seq<Record>) { exists rec | rec in journal :: Names(rec, list) }

  predicate Receives(rec: Record, name: FileName, blob: Blob) {
    rec.Received? && rec.file == name && rec.digest == DigestOf(blob)
  }

  predicate FileOnRecord(name: FileName, blob: Blob, journal: seq<Record>) {
    exists rec | rec in journal :: Receives(rec, name, blob)
  }

  predicate InviteOnRecord(invite: InviteFile, journal: seq<Record>) {
    invite.Invite? && exists rec | rec in journal :: Invites(rec, invite.name, invite.role)
  }

  predicate Invites(rec: Record, name: nat, role: Role) {
    rec.InviteMade? && rec.name == name && rec.role == role
  }

  /** A join record says that k was given the stop. */
  predicate KeyOnRecord(k: Key, journal: seq<Record>) { exists rec | rec in journal :: GivesKey(rec, k) }

  predicate GivesKey(rec: Record, k: Key) { rec.Joined? && rec.key == k && rec.holdsStop }

  predicate RemovedOnRecord(p: Person, journal: seq<Record>) { exists rec | rec in journal :: Removes(rec, p) }

  predicate Removes(rec: Record, p: Person) {
    rec.Removed? && rec.name == p.name && rec.role == p.role && rec.key == p.key
  }

  predicate Redeemed(past: Past, code: nat) { exists a | a in past.admissions :: a.code == code }

  /** p is on the list because an invite was redeemed for it. */
  predicate Admitted(past: Past, p: Person) { exists a | a in past.admissions :: a.person == p }

  predicate AllAdmitted(past: Past, people: seq<Person>) { forall p | p in people :: Admitted(past, p) }

  // ----- Writes that may be made -----

  /** What must be true when a write is made. */
  predicate Ok(s: State, w: Write) {
    match w
    case SaveInvite(code, invite) =>
      code in s.past.codes && !Redeemed(s.past, code) && InviteOnRecord(invite, s.journal)
    case GiveKey(key) => s.disk.key.NoKey? && KeyOnRecord(key, s.journal)
    case SavePeople(people, admission) =>
      && Distinct(people) && AllJoined(people, s.journal)
      && (forall p | p in s.people :: p in people || RemovedOnRecord(p, s.journal))
      && (forall p | p in people :: Admitted(s.past, p) || (admission.Some? && admission.value.person == p))
      && (admission.Some? ==>
            var code := admission.value.code;
            && code in s.past.codes && code !in s.disk.invites && !Redeemed(s.past, code)
            && admission.value.person in people)
    case SaveStop(list) => StopOnRecord(list, s.journal)
    case KeepFile(name, blob) => FileOnRecord(name, blob, s.journal)
    case _ => true
  }

  /** Each write of a list may be made when the ones before it have been. */
  predicate Safe(s: State, ws: seq<Write>)
    decreases |ws|
  {
    ws == [] || (Ok(s, ws[0]) && Safe(Effect(s, ws[0], true), ws[1..]))
  }

  predicate ForDesk(ws: seq<Write>) { forall w | w in ws :: !w.KeepFile? }

  predicate ForDoor(ws: seq<Write>) { forall w | w in ws :: w.Emit? || w.KeepFile? }

  // ----- The invariant -----

  predicate InvitesGood(s: State) {
    && (forall code | code in s.disk.invites :: code in s.past.codes && !Redeemed(s.past, code))
    && (forall a | a in s.past.admissions :: a.code in s.past.codes)
    && (forall i, j | 0 <= i < j < |s.past.admissions| :: s.past.admissions[i].code != s.past.admissions[j].code)
  }

  predicate ListsGood(s: State) {
    && (forall list | list in s.past.lists :: StopOnRecord(list, s.journal))
    && (s.disk.stop == if s.past.lists == [] then None else Some(s.past.lists[|s.past.lists| - 1]))
  }

  predicate PeopleGood(people: seq<Person>, journal: seq<Record>) { Distinct(people) && AllJoined(people, journal) }

  predicate Tidy(s: State) {
    && PeopleGood(s.people, s.journal) && PeopleGood(s.disk.people, s.journal)
    && AllAdmitted(s.past, s.people) && AllAdmitted(s.past, s.disk.people)
    && InvitesGood(s) && ListsGood(s)
  }

  predicate Inv(s: State) {
    && Tidy(s)
    && ForDesk(s.desk) && Safe(s, s.desk) && ForDoor(s.door) && Safe(s, s.door)
    && (!s.up ==> s.people == [] && s.desk == [] && s.door == [])
  }

  // ----- The two locks do not disturb each other -----

  /** Every record of journal is in journal'. */
  predicate Holds(journal': seq<Record>, journal: seq<Record>) { forall rec | rec in journal :: rec in journal' }

  /** s' differs from s only as another lock's holder, or the operator, may make it differ. */
  predicate SameDesk(s: State, s': State) {
    && Holds(s'.journal, s.journal) && s.past.codes <= s'.past.codes
    && s.past.admissions == s'.past.admissions && s.disk.key == s'.disk.key && s.people == s'.people
    && (forall code | code in s.past.codes && code in s'.disk.invites :: code in s.disk.invites)
  }

  predicate SameDoor(s: State, s': State) {
    Holds(s'.journal, s.journal) && s.disk.genomes == s'.disk.genomes
  }

  lemma OnRecordStays(journal: seq<Record>, journal': seq<Record>)
    requires Holds(journal', journal)
    ensures forall p :: JoinedOnRecord(p, journal) ==> JoinedOnRecord(p, journal')
    ensures forall people :: AllJoined(people, journal) ==> AllJoined(people, journal')
    ensures forall list :: StopOnRecord(list, journal) ==> StopOnRecord(list, journal')
    ensures forall name, blob :: FileOnRecord(name, blob, journal) ==> FileOnRecord(name, blob, journal')
    ensures forall invite :: InviteOnRecord(invite, journal) ==> InviteOnRecord(invite, journal')
    ensures forall k :: KeyOnRecord(k, journal) ==> KeyOnRecord(k, journal')
    ensures forall p :: RemovedOnRecord(p, journal) ==> RemovedOnRecord(p, journal')
  {
  }

  lemma OkForDesk(s: State, s': State, w: Write)
    requires SameDesk(s, s') && Ok(s, w) && !w.KeepFile?
    ensures Ok(s', w) && SameDesk(Effect(s, w, true), Effect(s', w, true))
  {
    OnRecordStays(s.journal, s'.journal);
  }

  lemma {:induction false} SafeForDesk(s: State, s': State, ws: seq<Write>)
    requires SameDesk(s, s') && Safe(s, ws) && ForDesk(ws)
    ensures Safe(s', ws)
    decreases |ws|
  {
    if ws != [] {
      OkForDesk(s, s', ws[0]);
      SafeForDesk(Effect(s, ws[0], true), Effect(s', ws[0], true), ws[1..]);
    }
  }

  lemma {:induction false} SafeForDoor(s: State, s': State, ws: seq<Write>)
    requires SameDoor(s, s') && Safe(s, ws) && ForDoor(ws)
    ensures Safe(s', ws)
    decreases |ws|
  {
    if ws != [] {
      OnRecordStays(s.journal, s'.journal);
      assert ws[0] in ws;
      SafeForDoor(Effect(s, ws[0], true), Effect(s', ws[0], true), ws[1..]);
    }
  }

  // ----- What a request decides is safe -----

  lemma JoinSafe(c: Config, s: State, key: Key, code: nat, now: int, stats: bool)
    requires Inv(s)
    ensures var ws := JoinWrites(c, s, key, code, now, stats); Safe(s, ws) && ForDesk(ws)
  {
    var ws := JoinWrites(c, s, key, code, now, stats);
    if |ws| == 1 {
      assert ws[1..] == [];
    } else if |ws| == 3 {
      JoinsSafely(s, ws[0].record, code, ws[2], []);
      assert ws == [ws[0]] + ([ws[1]] + ([] + [ws[2]]));
    } else if |ws| == 4 {
      JoinsSafely(s, ws[0].record, code, ws[3], [ws[2]]);
      assert ws == [ws[0]] + ([ws[1]] + ([ws[2]] + [ws[3]]));
    }
  }

  /** The writes of a join, from the last back: the list, the key it may come with, the invite used
      up, the record. */
  lemma JoinsSafely(s: State, rec: Record, code: nat, save: Write, key: seq<Write>)
    requires Inv(s) && save.SavePeople? && save.admission.Some? && save.admission.value.code == code
    requires code in s.disk.invites
    requires var p := save.admission.value.person;
             save.people == s.people + [p] && !Lists(s.people, p.key)
             && rec.Joined? && rec == Joined(p.name, p.role, p.key, rec.holdsStop)
    requires key == []
             || (key == [GiveKey(save.admission.value.person.key)] && s.disk.key.NoKey? && rec.holdsStop)
    ensures Safe(s, [Emit(rec)] + ([DropInvite(code)] + (key + [save])))
  {
    var s1 := Effect(s, Emit(rec), true);
    var s2 := Effect(s1, DropInvite(code), true);
    OnRecordStays(s.journal, s1.journal);
    assert s1.journal[|s.journal|] == rec;
    if key == [] {
      assert key + [save] == [save] + [];
      SafeCons(s2, save, []);
    } else {
      assert key + [save] == [key[0]] + [save];
      assert [save] == [save] + [];
      assert GivesKey(rec, key[0].key);
      SafeCons(Effect(s2, key[0], true), save, []);
      SafeCons(s2, key[0], [save]);
    }
    SafeCons(s1, DropInvite(code), key + [save]);
    SafeCons(s, Emit(rec), [DropInvite(code)] + (key + [save]));
  }

  lemma SafeCons(s: State, w: Write, ws: seq<Write>)
    requires Ok(s, w) && Safe(Effect(s, w, true), ws)
    ensures Safe(s, [w] + ws)
  {
    assert ([w] + ws)[1..] == ws;
  }

  lemma WithoutGood(people: seq<Person>, i: nat, journal: seq<Record>)
    requires PeopleGood(people, journal) && i < |people|
    ensures PeopleGood(people[..i] + people[i + 1..], journal)
    ensures !Lists(people[..i] + people[i + 1..], people[i].key)
  {
    var rest := people[..i] + people[i + 1..];
    forall j | 0 <= j < |rest| ensures rest[j] == people[if j < i then j else j + 1] {}
  }

  lemma StopSafe(c: Config, s: State, who: nat, list: ListBytes, keyReads: bool, listReads: bool)
    ensures var ws := StopWrites(c, s, who, list, keyReads, listReads); Safe(s, ws) && ForDesk(ws)
  {
    var ws := StopWrites(c, s, who, list, keyReads, listReads);
    if ws != [] {
      var journal := s.journal + [ws[0].record];
      assert journal[|s.journal|] == ws[0].record;
      assert Names(ws[0].record, list);
    }
  }

  lemma RemoveSafe(c: Config, s: State, who: nat, key: Key, keyReads: bool)
    requires Inv(s)
    ensures var ws := RemoveWrites(c, s, who, key, keyReads); Safe(s, ws) && ForDesk(ws)
  {
    var ws := RemoveWrites(c, s, who, key, keyReads);
    if ws != [] {
      var i, journal := LastOf(s.people, key), s.journal + [ws[0].record];
      WithoutGood(s.people, i, s.journal);
      OnRecordStays(s.journal, journal);
      assert journal[|s.journal|] == ws[0].record && Removes(ws[0].record, s.people[i]);
      StaysOrLeaves(s.people, i);
    }
  }

  lemma StaysOrLeaves(people: seq<Person>, i: nat)
    requires i < |people|
    ensures forall p | p in people :: p in people[..i] + people[i + 1..] || p == people[i]
  {
    var rest := people[..i] + people[i + 1..];
    forall p | p in people ensures p in rest || p == people[i] {
      var j :| 0 <= j < |people| && people[j] == p;
      if j < i { assert rest[j] == p; } else if j > i { assert rest[j - 1] == p; }
    }
  }

  lemma IncomingSafe(
    s: State, peer: Person, name: FileName, arrived: Option<Blob>, stated: Option<Digest>, stats: bool)
    ensures var ws := IncomingWrites(s, peer, name, arrived, stated, stats); Safe(s, ws) && ForDoor(ws)
  {
    var ws := IncomingWrites(s, peer, name, arrived, stated, stats);
    if ws != [] {
      var journal := s.journal + [ws[0].record];
      assert journal[|s.journal|] == ws[0].record;
      assert Receives(ws[0].record, name, arrived.value);
    }
  }

  // ----- Every step keeps it -----

  /** A write that may be made keeps the lists, the invites and the stop in order. */
  lemma EffectKeeps(s: State, w: Write, sure: bool)
    requires Tidy(s) && Ok(s, w)
    ensures Tidy(Effect(s, w, sure))
  {
    var s' := Effect(s, w, sure);
    OnRecordStays(s.journal, s'.journal);
    if w.SavePeople? && w.admission.Some? {
      AdmissionKeeps(s, w.admission.value, s');
      assert s'.past.admissions[|s.past.admissions|] == w.admission.value;
      assert forall a | a in s.past.admissions :: a in s'.past.admissions;
    }
  }

  lemma AdmissionKeeps(s: State, a: Admission, s': State)
    requires InvitesGood(s) && a.code in s.past.codes && a.code !in s.disk.invites && !Redeemed(s.past, a.code)
    requires s'.disk.invites == s.disk.invites
    requires s'.past.codes == s.past.codes && s'.past.admissions == s.past.admissions + [a]
    ensures InvitesGood(s')
  {
    forall b | b in s.past.admissions ensures b.code != a.code {}
  }

  lemma WriteTidy(s: State, w: Write, o: Outcome)
    requires Tidy(s) && Ok(s, w)
    ensures Tidy(Write1(s, w, o))
  {
    EffectKeeps(s, w, o.Happens?);
  }

  lemma DeskWriteKeeps(s: State, o: Outcome)
    requires Inv(s) && s.up && s.desk != []
    ensures Inv(Write1(s.(desk := if o.Happens? then s.desk[1..] else []), s.desk[0], o))
  {
    var w := s.desk[0];
    var s0 := s.(desk := if o.Happens? then s.desk[1..] else []);
    assert Tidy(s0) && Ok(s0, w);
    WriteTidy(s0, w, o);
    if !o.Dies? { DeskWriteSafe(s, o); }
  }

  lemma DeskWriteSafe(s: State, o: Outcome)
    requires Safe(s, s.desk) && ForDesk(s.desk) && Safe(s, s.door) && ForDoor(s.door) && s.desk != [] && !o.Dies?
    ensures var s' := Write1(s.(desk := if o.Happens? then s.desk[1..] else []), s.desk[0], o);
            Safe(s', s'.desk) && Safe(s', s'.door) && ForDesk(s'.desk) && s'.door == s.door
  {
    var w := s.desk[0];
    var s' := Write1(s.(desk := if o.Happens? then s.desk[1..] else []), w, o);
    assert !w.KeepFile?;
    DeskLeavesDoor(s, s', w);
    if o.Happens? { DeskGoesOn(s, w, s.desk[1..]); }
  }

  lemma EffectAside(s: State, ws: seq<Write>, w: Write, sure: bool)
    ensures Effect(s.(desk := ws), w, sure) == Effect(s, w, sure).(desk := ws)
  {
  }

  lemma DeskGoesOn(s: State, w: Write, rest: seq<Write>)
    requires Safe(Effect(s, w, true), rest) && ForDesk(rest)
    ensures Safe(Effect(s.(desk := rest), w, true), rest)
  {
    var e := Effect(s, w, true);
    EffectAside(s, rest, w, true);
    SafeForDesk(e, e.(desk := rest), rest);
  }

  lemma DeskLeavesDoor(s: State, s': State, w: Write)
    requires Safe(s, s.door) && ForDoor(s.door) && !w.KeepFile?
    requires Holds(s'.journal, s.journal) && s'.disk.genomes == s.disk.genomes
    ensures Safe(s', s.door)
  {
    SafeForDoor(s, s', s.door);
  }

  lemma DoorWriteKeeps(s: State, o: Outcome)
    requires Inv(s) && s.up && s.door != []
    ensures Inv(Write1(s.(door := if o.Happens? then s.door[1..] else []), s.door[0], o))
  {
    var w := s.door[0];
    var s0 := s.(door := if o.Happens? then s.door[1..] else []);
    assert Tidy(s0) && Ok(s0, w);
    WriteTidy(s0, w, o);
    if !o.Dies? { DoorWriteSafe(s, o); }
  }

  lemma DoorWriteSafe(s: State, o: Outcome)
    requires Safe(s, s.desk) && ForDesk(s.desk) && Safe(s, s.door) && ForDoor(s.door) && s.door != [] && !o.Dies?
    ensures var s' := Write1(s.(door := if o.Happens? then s.door[1..] else []), s.door[0], o);
            Safe(s', s'.desk) && Safe(s', s'.door) && ForDoor(s'.door) && s'.desk == s.desk
  {
    var w := s.door[0];
    var s' := Write1(s.(door := if o.Happens? then s.door[1..] else []), w, o);
    assert w in s.door;
    SafeForDesk(s, s', s.desk);
    if o.Happens? { SafeForDoor(Effect(s, w, true), s', s.door[1..]); }
  }

  /** A lock holder's list, decided while the lock was free. */
  lemma DeskBegun(s: State, ws: seq<Write>)
    requires Inv(s) && s.up && s.desk == [] && Safe(s, ws) && ForDesk(ws)
    ensures Inv(s.(desk := ws))
  {
    SafeForDesk(s, s.(desk := ws), ws);
    SafeForDoor(s, s.(desk := ws), s.door);
  }

  lemma DoorBegun(s: State, ws: seq<Write>)
    requires Inv(s) && s.up && s.door == [] && Safe(s, ws) && ForDoor(ws)
    ensures Inv(s.(door := ws))
  {
    SafeForDoor(s, s.(door := ws), ws);
    SafeForDesk(s, s.(door := ws), s.desk);
  }

  lemma BeginKeeps(c: Config, s: State, q: Request)
    requires Inv(s) && s.up
    ensures Inv(Begun(c, s, q))
  {
    match q {
      case Incoming(peer, name, arrived, stated, stats) =>
        IncomingSafe(s, peer, name, arrived, stated, stats);
        if s.door == [] { DoorBegun(s, IncomingWrites(s, peer, name, arrived, stated, stats)); }
      case Join(key, code, now, stats) =>
        JoinSafe(c, s, key, code, now, stats);
        if s.desk == [] { DeskBegun(s, JoinWrites(c, s, key, code, now, stats)); }
      case Stop(who, list, keyReads, listReads) =>
        StopSafe(c, s, who, list, keyReads, listReads);
        if s.desk == [] { DeskBegun(s, StopWrites(c, s, who, list, keyReads, listReads)); }
      case Remove(who, key, keyReads) =>
        RemoveSafe(c, s, who, key, keyReads);
        if s.desk == [] { DeskBegun(s, RemoveWrites(c, s, who, key, keyReads)); }
      case MakeInvite(who, code, name, role, expiresAt) =>
        if s.desk == [] && code !in s.past.codes { InviteBegins(s, who, code, name, role, expiresAt); }
    }
  }

  lemma InviteBegins(s: State, who: nat, code: nat, name: nat, role: Role, expiresAt: int)
    requires Inv(s) && s.up && s.desk == [] && code !in s.past.codes
    ensures Inv(s.(desk := InviteWrites(who, code, name, role, expiresAt),
                   past := s.past.(codes := s.past.codes + {code})))
  {
    var s1 := s.(past := s.past.(codes := s.past.codes + {code}));
    var ws := InviteWrites(who, code, name, role, expiresAt);
    CodeKeeps(s, code);
    assert s1.past.admissions == s.past.admissions;
    assert !Redeemed(s1.past, code);
    InviteSafe(s1, who, code, name, role, expiresAt);
    DeskBegun(s1, ws);
  }

  lemma InviteSafe(s: State, who: nat, code: nat, name: nat, role: Role, expiresAt: int)
    requires code in s.past.codes && !Redeemed(s.past, code)
    ensures var ws := InviteWrites(who, code, name, role, expiresAt); Safe(s, ws) && ForDesk(ws)
  {
    var ws := InviteWrites(who, code, name, role, expiresAt);
    var journal := s.journal + [ws[0].record];
    assert journal[|s.journal|] == ws[0].record && Invites(ws[0].record, name, role);
  }

  lemma CodeKeeps(s: State, code: nat)
    requires Inv(s)
    ensures Inv(s.(past := s.past.(codes := s.past.codes + {code})))
  {
    var s1 := s.(past := s.past.(codes := s.past.codes + {code}));
    assert s1.past.admissions == s.past.admissions;
    SafeForDesk(s, s1, s.desk);
    SafeForDoor(s, s1, s.door);
  }

  lemma PlaceKeeps(c: Config, s: State, code: nat, invite: InviteFile)
    requires Inv(s)
    ensures Inv(Step(c, s, Place(code, invite)))
  {
    var s' := Step(c, s, Place(code, invite));
    assert s'.past.admissions == s.past.admissions;
    SafeForDesk(s, s', s.desk);
    SafeForDoor(s, s', s.door);
  }

  lemma NoteKeeps(s: State, rec: Record)
    requires Inv(s)
    ensures Inv(s.(journal := s.journal + [rec]))
  {
    var s' := s.(journal := s.journal + [rec]);
    OnRecordStays(s.journal, s'.journal);
    SafeForDesk(s, s', s.desk);
    SafeForDoor(s, s', s.door);
  }

  lemma StepKeeps(c: Config, s: State, a: Action)
    requires Inv(s)
    ensures Inv(Step(c, s, a))
  {
    match a
    case Begin(q) => if s.up { BeginKeeps(c, s, q); }
    case Desk(o) => if s.up && s.desk != [] { DeskWriteKeeps(s, o); }
    case Door(o) => if s.up && s.door != [] { DoorWriteKeeps(s, o); }
    case Place(code, invite) => PlaceKeeps(c, s, code, invite);
    case Note(rec) => NoteKeeps(s, rec);
    case _ =>
  }

  lemma {:induction false} RunKeeps(c: Config, s: State, run: seq<Action>)
    requires Inv(s)
    ensures Inv(Run(c, s, run))
  {
    if run != [] {
      RunKeeps(c, s, run[..|run| - 1]);
      StepKeeps(c, Run(c, s, run[..|run| - 1]), run[|run| - 1]);
    }
  }
}
