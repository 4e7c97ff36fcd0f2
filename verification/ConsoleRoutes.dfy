/** Which caller reaches which handler: by the key of the connection, its place on the list and the role
    the route wants. */
module ConsoleRoutes {
  import opened Options
  import opened ConsoleSteps
  import opened ConsoleSafety
  import opened ConsoleTheorems
  import opened ConsoleServers

  /** What a caller asks for, as it arrives. */
  datatype Body =
    | JoinBody(code: nat, stats: bool)
    | StopBody(list: ListBytes, keyReads: bool, listReads: bool)
    | InviteBody(code: nat, name: nat, role: Role, expiresAt: int)
    | RemoveBody(key: Key, keyReads: bool)
    | IncomingBody(file: FileName, arrived: Option<Blob>, stated: Option<Digest>, stats: bool)

  /** The role a route wants; a join wants none. */
  function Wants(b: Body): Role {
    if b.JoinBody? || b.IncomingBody? then Peer else Owner
  }

  function Rank(r: Role): nat {
    match r
    case Peer => 0
    case Viewer => 1
    case Operator => 2
    case Owner => 3
  }

  /** A role allows what every lesser role does, and no more. */
  lemma RolesNest(r: Role, min: Role)
    ensures Allows(r, min) <==> Rank(min) <= Rank(r)
  {
  }

  /** p may ask for b: an owner for anything, another server for nothing but to hand a file in. */
  predicate MayAsk(p: Person, b: Body) {
    b.JoinBody? || p.role.Owner? || (b.IncomingBody? && p.role.Peer?)
  }

  /** The record is of something done by that person, or of a join under that key. */
  predicate By(rec: Record, name: nat, key: Key) {
    match rec
    case Joined(_, _, joined, _) => joined == key
    case Removed(who, _, _, _) => who == name
    case InviteMade(who, _, _) => who == name
    case StopChanged(who, _, _, _, _) => who == name
    case Received(who, _, _) => who == name
    case _ => false
  }

  /** Nothing but the record of what was asked for by that person or key is new. */
  predicate Attributed(journal: seq<Record>, journal': seq<Record>, name: nat, key: Key) {
    journal <= journal' && forall i | |journal| <= i < |journal'| :: By(journal'[i], name, key)
  }

  /** Whoever the caller's key stands for, listed and in their time, that may ask for it. */
  predicate Entitled(s: State, caller: Key, now: int, b: Body) {
    exists p | p in s.people :: p.key == caller && !Expired(p, now) && MayAsk(p, b)
  }

  /** The records among the writes. */
  predicate AllBy(ws: seq<Write>, name: nat, key: Key) { forall w | w in ws && w.Emit? :: By(w.record, name, key) }

  lemma {:induction false} PerformAttributed(s: State, ws: seq<Write>, f: Fault, i: nat, name: nat, key: Key)
    requires AllBy(ws, name, key)
    ensures Attributed(s.journal, Perform(s, ws, f, i).journal, name, key)
    decreases |ws| - i
  {
    if i < |ws| && f.Out(i).Happens? {
      assert ws[i] in ws;
      PerformAttributed(Effect(s, ws[i], true), ws, f, i + 1, name, key);
    } else if i < |ws| {
      assert ws[i] in ws;
    }
  }

  /** What a handler leaves: the invariant, and nothing on the record but what was asked for. */
  ghost predicate Served(s: State, s': State, name: nat, key: Key) {
    Inv(s') && Attributed(s.journal, s'.journal, name, key)
  }

  lemma DeskServed(c: Config, s: State, q: Request, f: Fault, name: nat, key: Key)
    requires Inv(s) && s.up && s.desk == [] && !q.Incoming? && AllBy(Begun(c, s, q).desk, name, key)
    ensures var begun := Begun(c, s, q);
            Served(s, Perform(begun.(desk := []), begun.desk, f, 0), name, key)
  {
    var begun := Begun(c, s, q);
    HandlerIsRun(c, s, q, f);
    RunKeeps(c, s, [Begin(q)] + AtDesk(Outcomes(|begun.desk|, f, 0)));
    PerformAttributed(begun.(desk := []), begun.desk, f, 0, name, key);
  }

  lemma JoinServed(c: Config, s: State, key: Key, code: nat, now: int, stats: bool, f: Fault)
    requires Inv(s) && s.up && s.desk == []
    ensures Served(s, Perform(s, JoinWrites(c, s, key, code, now, stats), f, 0), 0, key)
  {
    DeskServed(c, s, Join(key, code, now, stats), f, 0, key);
    assert Begun(c, s, Join(key, code, now, stats)).(desk := []) == s;
  }

  lemma StopServedAs(c: Config, s: State, p: Person, list: ListBytes, keyReads: bool, listReads: bool, f: Fault)
    requires Inv(s) && s.up && s.desk == []
    ensures Served(s, Perform(s, StopWrites(c, s, p.name, list, keyReads, listReads), f, 0), p.name, p.key)
  {
    DeskServed(c, s, Stop(p.name, list, keyReads, listReads), f, p.name, p.key);
    assert Begun(c, s, Stop(p.name, list, keyReads, listReads)).(desk := []) == s;
  }

  lemma InviteServed(c: Config, s: State, p: Person, code: nat, name: nat, role: Role, expiresAt: int, f: Fault)
    requires Inv(s) && s.up && s.desk == [] && code !in s.past.codes
    ensures var begun := s.(past := s.past.(codes := s.past.codes + {code}));
            Served(s, Perform(begun, InviteWrites(p.name, code, name, role, expiresAt), f, 0), p.name, p.key)
  {
    var begun := s.(past := s.past.(codes := s.past.codes + {code}));
    DeskServed(c, s, MakeInvite(p.name, code, name, role, expiresAt), f, p.name, p.key);
    assert Begun(c, s, MakeInvite(p.name, code, name, role, expiresAt)).(desk := []) == begun;
  }

  lemma RemoveServed(c: Config, s: State, p: Person, key: Key, keyReads: bool, f: Fault)
    requires Inv(s) && s.up && s.desk == []
    ensures Served(s, Perform(s, RemoveWrites(c, s, p.name, key, keyReads), f, 0), p.name, p.key)
  {
    DeskServed(c, s, Remove(p.name, key, keyReads), f, p.name, p.key);
    assert Begun(c, s, Remove(p.name, key, keyReads)).(desk := []) == s;
  }

  lemma IntakeServed(c: Config, s: State, p: Person, name: FileName, arrived: Option<Blob>, stated: Option<Digest>,
                     stats: bool, f: Fault)
    requires Inv(s) && s.up && s.door == []
    ensures Served(s, Perform(s, IncomingWrites(s, p, name, arrived, stated, stats), f, 0), p.name, p.key)
  {
    var ws := IncomingWrites(s, p, name, arrived, stated, stats);
    var q := Incoming(p, name, arrived, stated, stats);
    IncomingIsRun(c, s, q, f);
    RunKeeps(c, s, [Begin(q)] + AtDoor(Outcomes(|ws|, f, 0)));
    PerformAttributed(s, ws, f, 0, p.name, p.key);
  }

  /** What the handler itself wants of a request, whoever makes it. */
  predicate Granted(c: Config, s: State, b: Body)
    requires !b.JoinBody?
  {
    match b
    case StopBody(list, keyReads, listReads) =>
      c.stopConfigured && keyReads && Loads(c, s, list)
      && list.serial > SerialInForce(c, s.disk, s.disk.key.key, listReads)
    case InviteBody(_, _, _, _) => true
    case RemoveBody(key, keyReads) => Lists(s.people, key) && !HoldsStop(c, s.disk, key, keyReads)
    case IncomingBody(file, arrived, stated, stats) =>
      ValidName(file) && (stats ==> file !in s.disk.genomes)
      && arrived.Some? && stated == Some(DigestOf(arrived.value))
  }

  /** A request of an admitted person, under whose name it is recorded. */
  method Handle(server: ConsoleServer, p: Person, b: Body, f: Fault) returns (resp: Response)
    requires server.up && server.desk == [] && server.door == [] && Inv(server.Machine()) && !b.JoinBody?
    requires b.InviteBody? ==> b.code !in server.past.codes
    modifies server
    ensures Served(old(server.Machine()), server.Machine(), p.name, p.key)
    ensures b.IncomingBody? && !(p.role.Peer? || p.role.Owner?) ==>
              resp.Refused? && server.Machine() == old(server.Machine())
    ensures resp.Accepted? <==>
              && old(Granted(server.c, server.Machine(), b)) && Clean(f, 2)
              && (b.IncomingBody? ==> p.role.Peer? || p.role.Owner?)
  {
    ghost var s, c := server.Machine(), server.c;
    match b
    case StopBody(list, keyReads, listReads) =>
      StopServedAs(c, s, p, list, keyReads, listReads, f);
      resp := server.HandleStop(p.name, list, keyReads, listReads, f);
    case InviteBody(code, name, role, expiresAt) =>
      InviteServed(c, s, p, code, name, role, expiresAt, f);
      resp := server.HandleInvite(p.name, code, name, role, expiresAt, f);
    case RemoveBody(key, keyReads) =>
      RemoveServed(c, s, p, key, keyReads, f);
      resp := server.HandleRemove(p.name, key, keyReads, f);
    case IncomingBody(file, arrived, stated, stats) =>
      IntakeServed(c, s, p, file, arrived, stated, stats, f);
      resp := server.HandleIncoming(p, file, arrived, stated, stats, f);
  }

  /** A request served: it is accepted exactly when the caller is entitled to it, the handler grants it and
      nothing fails. A caller who is not entitled changes nothing, and every record a request leaves names
      the person whose key made it. */
  method Serve(server: ConsoleServer, caller: Key, now: int, b: Body, f: Fault) returns (resp: Response)
    requires server.up && server.desk == [] && server.door == [] && Inv(server.Machine())
    requires b.InviteBody? ==> b.code !in server.past.codes
    modifies server
    ensures Inv(server.Machine())
    ensures !b.JoinBody? && !old(Entitled(server.Machine(), caller, now, b)) ==>
              resp.Refused? && server.Machine() == old(server.Machine())
    ensures b.JoinBody? ==>
              (resp.Accepted? <==> JoinSucceeds(server.c, old(server.Machine()), caller, b.code, now, b.stats, f))
    ensures !b.JoinBody? ==>
              (resp.Accepted? <==>
               && old(Entitled(server.Machine(), caller, now, b)) && old(Granted(server.c, server.Machine(), b))
               && Clean(f, 2))
    ensures b.JoinBody? ==> Attributed(old(server.journal), server.journal, 0, caller)
    ensures !b.JoinBody? && old(Entitled(server.Machine(), caller, now, b)) ==>
              exists p | p in old(server.people) ::
                p.key == caller && Attributed(old(server.journal), server.journal, p.name, caller)
  {
    ghost var s, c := server.Machine(), server.c;
    if b.JoinBody? {
      JoinServed(c, s, caller, b.code, now, b.stats, f);
      resp := server.HandleJoin(caller, b.code, now, b.stats, f);
      return;
    }
    var p := server.Admit(caller, Wants(b), now);
    if p.None? { return Refused; }
    OneHolds(s.people, p.value);
    resp := Handle(server, p.value, b, f);
  }
}
