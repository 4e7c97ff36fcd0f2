/** Where the console's guarantees end: exactly when a stop is rolled back, a listed holder of the
    operator key is removed, or a file is overwritten. */
module ConsoleLimits {
  import opened Options
  import opened ConsoleSteps
  import opened ConsoleSafety
  import opened ConsoleTheorems
  import opened ConsoleServers

  /** The i-th write of a request takes effect, whether the handler learns of it or not. */
  predicate Takes(f: Fault, i: nat) {
    f.how.Happens? || f.at > i || (f.at == i && f.how.done)
  }

  // ----- A stop taken -----

  /** The serial a stop is compared with is that of the newest list ever written, or none at all when
      that one cannot be read. */
  lemma InForceIsNewest(c: Config, s: State, list: ListBytes, listReads: bool)
    requires Inv(s) && SerialsGood(c, s) && Loads(c, s, list)
    ensures var current := SerialInForce(c, s.disk, s.disk.key.key, listReads);
            && (list.serial > current <==> !listReads || Newer(s, list))
            && (current == 0 <==> !listReads || s.past.lists == [])
  {
    if s.past.lists != [] { LastIsNewest(c, s); }
  }

  /** What the record of a taken list says: a stop is set, or the first list makes the stop ready, or it
      lifts what was in force. */
  function ActionOf(past: Past, list: ListBytes, listReads: bool): StopAction
    requires list.StopList?
  {
    if list.stopAll then StopSet else if listReads && past.lists != [] then StopLifted else StopReady
  }

  /** A list is taken if and only if its holder signed it and it is newer than every list ever written,
      or the one in force cannot be read: then it is in force, on the record before it, and nothing else
      has changed. Whether it sets a stop or lifts one makes no difference. */
  lemma StopTakenExactly(c: Config, s: State, who: nat, list: ListBytes, keyReads: bool, listReads: bool, f: Fault)
    requires Inv(s) && SerialsGood(c, s) && s.up && s.desk == [] && c.stopConfigured
    ensures var s' := Perform(s, StopWrites(c, s, who, list, keyReads, listReads), f, 0);
            var taken := keyReads && Loads(c, s, list) && (listReads ==> Newer(s, list));
            && (s'.disk == if taken && Takes(f, 1) then s.disk.(stop := Some(list)) else s.disk)
            && (s'.past.lists == if taken && Takes(f, 1) then s.past.lists + [list] else s.past.lists)
            && (s'.journal == if taken && Takes(f, 0) then s.journal + [
                  StopChanged(who, ActionOf(s.past, list, listReads), list.serial, list.stopAll, DigestOfList(list))]
                else s.journal)
  {
    var ws := StopWrites(c, s, who, list, keyReads, listReads);
    if keyReads && Loads(c, s, list) { InForceIsNewest(c, s, list, listReads); }
    if ws != [] { PerformTwo(s, ws, f); }
  }

  /** So a stop that is in force is lifted by the holder's next list, whatever the server has written
      before, and set again by the one after it. */
  lemma StopAndLift(c: Config, s: State, who: nat, stop: ListBytes, lift: ListBytes)
    requires Inv(s) && SerialsGood(c, s) && s.up && s.desk == [] && c.stopConfigured
    requires Loads(c, s, stop) && Newer(s, stop) && stop.stopAll
    requires Loads(c, s, lift) && !lift.stopAll && lift.serial > stop.serial
    ensures var clean := Fault(0, Happens);
            var s1 := Perform(s, StopWrites(c, s, who, stop, true, true), clean, 0);
            var s2 := Perform(s1, StopWrites(c, s1, who, lift, true, true), clean, 0);
            && s1.disk.stop == Some(stop) && s2.disk.stop == Some(lift)
            && s2.journal == s.journal + [
                 StopChanged(who, StopSet, stop.serial, true, DigestOfList(stop)),
                 StopChanged(who, StopLifted, lift.serial, false, DigestOfList(lift))]
  {
    var clean, ws := Fault(0, Happens), StopWrites(c, s, who, stop, true, true);
    var s1 := Perform(s, ws, clean, 0);
    StopTakenExactly(c, s, who, stop, true, true, clean);
    HandlerIsRun(c, s, Stop(who, stop, true, true), clean);
    StopServed(c, s, who, stop, clean);
    forall prior | prior in s1.past.lists ensures prior.StopList? && prior.serial < lift.serial {
      assert prior in s.past.lists || prior == stop;
    }
    StopTakenExactly(c, s1, who, lift, true, true, clean);
  }

  /** A stop handled with the list in force read leaves the server as ready for the next. */
  lemma StopServed(c: Config, s: State, who: nat, list: ListBytes, f: Fault)
    requires Inv(s) && SerialsGood(c, s) && s.up && s.desk == [] && f.how.Happens?
    ensures var s' := Perform(s, StopWrites(c, s, who, list, true, true), f, 0);
            Inv(s') && SerialsGood(c, s') && s'.up && s'.desk == [] && s'.disk.key == s.disk.key
  {
    var q, ws := Stop(who, list, true, true), StopWrites(c, s, who, list, true, true);
    var run := [Begin(q)] + AtDesk(Outcomes(|ws|, f, 0));
    HandlerIsRun(c, s, q, f);
    assert Begun(c, s, q).(desk := []) == s;
    RunKeeps(c, s, run);
    if ws != [] {
      PerformTwo(s, ws, f);
      StopBegins(c, s, q);
      ListSerials(c, s, Perform(s, ws, f, 0), list);
    }
  }

  // ----- A stop rolled back -----

  /** A list the holder signed, no newer than the one in force, is written over it if and only if that
      one could not be read and the write takes effect. Then the serials no longer increase, and
      never do again. */
  lemma RollbackExactly(c: Config, s: State, who: nat, list: ListBytes, listReads: bool, f: Fault)
    requires Inv(s) && SerialsGood(c, s) && s.up && s.desk == [] && c.stopConfigured && Loads(c, s, list)
    requires list.serial <= SerialInForce(c, s.disk, s.disk.key.key, true)
    ensures var s' := Perform(s, StopWrites(c, s, who, list, true, listReads), f, 0);
            && (!Increasing(s'.past.lists) <==> !listReads && Takes(f, 1))
            && (s'.past.lists != s.past.lists <==> !listReads && Takes(f, 1))
            && (!listReads && Takes(f, 1) ==> s'.disk.stop == Some(list))
            && (!listReads && Takes(f, 1) ==> forall run :: !Increasing(Run(c, s', run).past.lists))
  {
    var ws := StopWrites(c, s, who, list, true, listReads);
    var s' := Perform(s, ws, f, 0);
    assert s.past.lists != [] by { assert s.disk.stop.Some?; }
    LastIsNewest(c, s);
    if !listReads {
      PerformTwo(s, ws, f);
      if Takes(f, 1) {
        assert s'.past.lists == s.past.lists + [list];
        Fallen(s.past.lists, list);
        forall run ensures !Increasing(Run(c, s', run).past.lists) {
          ListsOnlyGrow(c, s', run);
          StillFallen(s'.past.lists, Run(c, s', run).past.lists);
        }
      }
    }
  }

  lemma Fallen(lists: seq<ListBytes>, list: ListBytes)
    requires Increasing(lists) && lists != [] && list.StopList? && list.serial <= lists[|lists| - 1].serial
    ensures !Increasing(lists + [list])
  {
    var more, n := lists + [list], |lists|;
    assert lists[n - 1] in lists;
    assert more[n - 1] == lists[n - 1] && more[n] == list;
  }

  lemma StillFallen(lists: seq<ListBytes>, more: seq<ListBytes>)
    requires lists <= more && !Increasing(lists)
    ensures !Increasing(more)
  {
    if Increasing(more) {
      forall list | list in lists ensures list.StopList? { assert list in more; }
      forall i, j | 0 <= i < j < |lists| ensures lists[i].serial < lists[j].serial {
        assert lists[i] == more[i] && lists[j] == more[j];
      }
    }
  }

  /** A stop request, and all its writes. */
  function StopRun(list: ListBytes, listReads: bool): seq<Action> {
    [Begin(Stop(0, list, true, listReads))] + AtDesk(Outcomes(2, Fault(0, Happens), 0))
  }

  lemma StopRuns(c: Config, s: State, list: ListBytes, listReads: bool)
    requires s.up && s.desk == [] && |StopWrites(c, s, 0, list, true, listReads)| == 2
    ensures Run(c, s, StopRun(list, listReads)) ==
            Perform(s, StopWrites(c, s, 0, list, true, listReads), Fault(0, Happens), 0)
  {
    var q := Stop(0, list, true, listReads);
    HandlerIsRun(c, s, q, Fault(0, Happens));
    assert Begun(c, s, q).(desk := []) == s;
  }

  /** The first list of a server whose key file names k. */
  lemma FirstStop(c: Config, s: State, k: Key, list: ListBytes)
    requires Empty(s) && s.disk.key == Holder(k) && k.suite in c.suites && c.stopConfigured && Parses(c, list, k)
    ensures var s2 := Run(c, s, [Start] + StopRun(list, true));
            && Inv(s2) && SerialsGood(c, s2) && s2.up && s2.desk == [] && s2.disk.key == Holder(k)
            && s2.past.lists == [list] && s2.disk.stop == Some(list)
  {
    var s1 := Step(c, s, Start);
    RunFirst(c, s, Start, StopRun(list, true));
    StopRuns(c, s1, list, true);
    PerformTwo(s1, StopWrites(c, s1, 0, list, true, true), Fault(0, Happens));
    RunKeeps(c, s, [Start] + StopRun(list, true));
  }

  /** It happens: the holder writes a list of serial 2, and after it one of serial 1 while the first
      cannot be read. */
  lemma SerialsFall(c: Config, s: State, k: Key)
    requires Empty(s) && s.disk.key == Holder(k) && k.suite in c.suites && c.stopConfigured
    ensures exists run :: !Increasing(Run(c, s, run).past.lists)
  {
    var newer, older := StopList(2, true, c.kid, k, 0), StopList(1, false, c.kid, k, 0);
    var one, two := [Start] + StopRun(newer, true), StopRun(older, false);
    FirstStop(c, s, k, newer);
    var s2 := Run(c, s, one);
    StopRuns(c, s2, older, false);
    RollbackExactly(c, s2, 0, older, false, Fault(0, Happens));
    RunJoined(c, s, one, two);
    assert !Increasing(Run(c, s, one + two).past.lists);
  }

  // ----- The holder removed -----

  /** A removal of the holder leaves the list on disk without them if and only if the key file could
      not be read and the write takes effect; when the handler learns of it, the list in memory too. */
  lemma HolderRemovedExactly(c: Config, s: State, who: nat, k: Key, keyReads: bool, f: Fault)
    requires Inv(s) && c.stopConfigured && HolderListed(s, k) && s.up && s.desk == []
    ensures var s' := Perform(s, RemoveWrites(c, s, who, k, keyReads), f, 0);
            && (!Lists(s'.disk.people, k) <==> !keyReads && Takes(f, 1))
            && (!keyReads && (f.how.Happens? || f.at > 1) ==> !Lists(s'.people, k))
            && (keyReads ==> s' == s)
            && s'.disk.key == Holder(k)
  {
    var ws, i := RemoveWrites(c, s, who, k, keyReads), LastOf(s.people, k);
    var p :| p in s.people && p.key == k;
    var j :| 0 <= j < |s.people| && s.people[j] == p;
    assert i >= j;
    if !keyReads {
      PerformTwo(s, ws, f);
      WithoutGood(s.people, i, s.journal);
    }
  }

  /** The operator key is somebody's who is not listed. */
  predicate Stranded(s: State, k: Key) {
    s.disk.key == Holder(k) && !Lists(s.disk.people, k) && !Lists(s.people, k)
  }

  // ----- Reached -----

  /** The operator invites the first owner, and the server starts. */
  const INVITED: seq<Action> := [Place(0, Invite(0, Owner, 0))] + [Start]

  /** They join, under a failure or none. */
  function Joins(k: Key, f: Fault): seq<Action> { [Begin(Join(k, 0, 0, true))] + AtDesk(Outcomes(4, f, 0)) }

  predicate OwnerInvited(s: State) {
    && s.up && s.desk == [] && s.people == [] && s.disk.people == [] && s.disk.key.NoKey?
    && s.disk.invites == map[0 := Invite(0, Owner, 0)]
  }

  lemma Invited(c: Config, s: State)
    requires Empty(s) && s.disk.key.NoKey?
    ensures OwnerInvited(Run(c, s, INVITED)) && Inv(Run(c, s, INVITED)) && 1 !in Run(c, s, INVITED).past.codes
  {
    var place := Place(0, Invite(0, Owner, 0));
    RunFirst(c, s, place, [Start]);
    RunFirst(c, Step(c, s, place), Start, []);
    assert [Start] + [] == [Start];
    RunKeeps(c, s, INVITED);
  }

  lemma JoinRuns(c: Config, s: State, k: Key, f: Fault)
    requires OwnerInvited(s) && c.stopConfigured
    ensures var ws := JoinWrites(c, s, k, 0, 0, true);
            |ws| == 4 && ws[3].SavePeople? && Lists(ws[3].people, k) && Run(c, s, Joins(k, f)) == Perform(s, ws, f, 0)
  {
    var q, ws := Join(k, 0, 0, true), JoinWrites(c, s, k, 0, 0, true);
    assert !Lists(s.people, k);
    assert ws[3].people[0] in ws[3].people;
    HandlerIsRun(c, s, q, f);
    assert Begun(c, s, q).(desk := []) == s;
  }

  /** The join that gives the key lists its holder. */
  lemma ListingReached(c: Config, s: State, k: Key)
    requires Empty(s) && s.disk.key.NoKey? && c.stopConfigured
    ensures var t := Run(c, s, INVITED + Joins(k, Fault(0, Happens))); HolderListed(t, k) && t.up && t.desk == []
  {
    var s1, whole := Run(c, s, INVITED), Fault(0, Happens);
    Invited(c, s);
    JoinRuns(c, s1, k, whole);
    PerformJoin(s1, JoinWrites(c, s1, k, 0, 0, true), whole);
    RunJoined(c, s, INVITED, Joins(k, whole));
  }

  /** ... and they can be removed. */
  lemma RemovalReached(c: Config, s: State, k: Key)
    requires Empty(s) && s.disk.key.NoKey? && c.stopConfigured
    ensures exists run, more :: HolderListed(Run(c, s, run), k) && Stranded(Run(c, s, run + more), k)
  {
    ListingReached(c, s, k);
    Removes(c, s, INVITED + Joins(k, Fault(0, Happens)), k);
  }

  lemma Removes(c: Config, s: State, run: seq<Action>, k: Key)
    requires Inv(s) && c.stopConfigured
    requires var t := Run(c, s, run); HolderListed(t, k) && t.up && t.desk == []
    ensures exists more :: Stranded(Run(c, s, run + more), k)
  {
    var t, q, f := Run(c, s, run), Remove(0, k, false), Fault(0, Happens);
    RunKeeps(c, s, run);
    HandlerIsRun(c, t, q, f);
    assert Begun(c, t, q).(desk := []) == t;
    HolderRemovedExactly(c, t, 0, k, false, f);
    var more := [Begin(q)] + AtDesk(Outcomes(|Begun(c, t, q).desk|, f, 0));
    RunJoined(c, s, run, more);
    assert Stranded(Run(c, s, run + more), k);
  }

  // ----- A file overwritten -----

  /** A file already in the genome directory changes content if and only if a request overwrites it and
      the write takes effect; no other file does. */
  lemma OverwriteExactly(c: Config, s: State, q: Request, f: Fault)
    requires Inv(s) && s.up && s.door == [] && q.Incoming? && q.file in s.disk.genomes
    ensures var s' := Perform(s, IncomingWrites(s, q.peer, q.file, q.arrived, q.stated, q.stats), f, 0);
            && q.file in s'.disk.genomes
            && (s'.disk.genomes[q.file] != s.disk.genomes[q.file] <==> Overwrites(s, q) && Takes(f, 1))
            && (forall name | name != q.file ::
                  && (name in s'.disk.genomes <==> name in s.disk.genomes)
                  && (name in s.disk.genomes ==> s'.disk.genomes[name] == s.disk.genomes[name]))
  {
    var ws := IncomingWrites(s, q.peer, q.file, q.arrived, q.stated, q.stats);
    if ws != [] { PerformTwo(s, ws, f); }
  }

  /** A file handed in, and all its writes. */
  function HandsIn(q: Request): seq<Action> { [Begin(q)] + AtDoor(Outcomes(2, Fault(0, Happens), 0)) }

  function IncomingOf(name: FileName, blob: Blob, stats: bool): Request {
    Incoming(Person(0, Peer, Key(0, 0), None), name, Some(blob), Some(DigestOf(blob)), stats)
  }

  lemma HandsInKeeps(c: Config, s: State, name: FileName, blob: Blob, stats: bool)
    requires Inv(s) && s.up && s.door == [] && ValidName(name) && (stats ==> name !in s.disk.genomes)
    ensures var s' := Run(c, s, HandsIn(IncomingOf(name, blob, stats)));
            && Inv(s') && s'.up && s'.door == [] && name in s'.disk.genomes && s'.disk.genomes[name] == blob
  {
    var q, f := IncomingOf(name, blob, stats), Fault(0, Happens);
    var ws := IncomingWrites(s, q.peer, q.file, q.arrived, q.stated, q.stats);
    IncomingIsRun(c, s, q, f);
    PerformTwo(s, ws, f);
    RunKeeps(c, s, HandsIn(q));
  }

  lemma FirstHandIn(c: Config, s: State, name: FileName, blob: Blob)
    requires Empty(s) && ValidName(name) && name !in s.disk.genomes
    ensures var s' := Run(c, s, [Start] + HandsIn(IncomingOf(name, blob, true)));
            && Inv(s') && s'.up && s'.door == [] && name in s'.disk.genomes && s'.disk.genomes[name] == blob
  {
    RunFirst(c, s, Start, HandsIn(IncomingOf(name, blob, true)));
    HandsInKeeps(c, Step(c, s, Start), name, blob, true);
  }

  /** It happens: a file is taken in, and then another of the same name while the first cannot be
      stated. */
  lemma OverwriteReached(c: Config, s: State, name: FileName, one: Blob, two: Blob)
    requires Empty(s) && ValidName(name) && name !in s.disk.genomes && one != two
    ensures var run := [Start] + HandsIn(IncomingOf(name, one, true));
            var more := HandsIn(IncomingOf(name, two, false));
            && name in Run(c, s, run).disk.genomes && Run(c, s, run).disk.genomes[name] == one
            && name in Run(c, s, run + more).disk.genomes && Run(c, s, run + more).disk.genomes[name] == two
  {
    var run, more := [Start] + HandsIn(IncomingOf(name, one, true)), HandsIn(IncomingOf(name, two, false));
    FirstHandIn(c, s, name, one);
    HandsInKeeps(c, Run(c, s, run), name, two, false);
    RunJoined(c, s, run, more);
  }
}
