/** What holds of every run of the console from an authority nobody has joined yet. */
module ConsoleTheorems {
  import opened Options
  import opened ConsoleSteps
  import opened ConsoleSafety

  // ----- The record comes first -----

  lemma StepJournal(c: Config, s: State, a: Action)
    ensures s.journal <= Step(c, s, a).journal
  {
  }

  lemma {:induction false} JournalOnlyGrows(c: Config, s: State, run: seq<Action>)
    ensures s.journal <= Run(c, s, run).journal
  {
    if run != [] {
      JournalOnlyGrows(c, s, run[..|run| - 1]);
      StepJournal(c, Run(c, s, run[..|run| - 1]), run[|run| - 1]);
    }
  }

  /** At every moment of every run: whoever is listed, in memory or on disk, has a join record with
      that key and role; every stop list written has a record of its serial and hash; no file of the
      genome directory vanishes, and every file whose content came since has a record of its name and
      hash; every invite the operator did not place has a record of its name and role, and whoever the
      operator key is given to has a join record that says so. */
  lemma RecordBeforeEffect(c: Config, s: State, run: seq<Action>)
    requires Empty(s)
    ensures var s' := Run(c, s, run);
            && AllJoined(s'.people, s'.journal) && AllJoined(s'.disk.people, s'.journal)
            && (forall list | list in s'.past.lists :: StopOnRecord(list, s'.journal))
            && s'.disk.stop == (if s'.past.lists == [] then None else Some(s'.past.lists[|s'.past.lists| - 1]))
            && FilesRecorded(s, s') && InvitesRecorded(s, run, s') && KeyRecorded(s, s')
  {
    RunKeeps(c, s, run);
    FilesComeRecorded(c, s, run);
    InvitesComeRecorded(c, s, run);
    KeyComesRecorded(c, s, run);
  }

  /** An invite was there, was placed by the operator, or is on record. */
  predicate InvitesRecorded(s: State, run: seq<Action>, s': State) {
    forall code | code in s'.disk.invites ::
      || (code in s.disk.invites && s'.disk.invites[code] == s.disk.invites[code])
      || Place(code, s'.disk.invites[code]) in run
      || InviteOnRecord(s'.disk.invites[code], s'.journal)
  }

  /** The key file is as it was, or names somebody whose join is on record as giving it. */
  predicate KeyRecorded(s: State, s': State) {
    s'.disk.key == s.disk.key || (s'.disk.key.Holder? && KeyOnRecord(s'.disk.key.key, s'.journal))
  }

  lemma StepInvites(c: Config, s: State, a: Action)
    requires Inv(s)
    ensures InvitesRecorded(s, [a], Step(c, s, a)) && KeyRecorded(s, Step(c, s, a))
  {
    if a.Desk? && s.up && s.desk != [] {
      WriteRecorded(s.(desk := if a.outcome.Happens? then s.desk[1..] else []), s.desk[0], a.outcome);
    } else if a.Door? && s.up && s.door != [] {
      assert s.door[0] in s.door && Ok(s, s.door[0]);
      WriteRecorded(s.(door := if a.outcome.Happens? then s.door[1..] else []), s.door[0], a.outcome);
    } else {
      OthersRecorded(c, s, a);
    }
  }

  lemma WriteRecorded(s: State, w: Write, o: Outcome)
    requires Ok(s, w)
    ensures InvitesRecorded(s, [], Write1(s, w, o)) && KeyRecorded(s, Write1(s, w, o))
  {
  }

  lemma OthersRecorded(c: Config, s: State, a: Action)
    requires !(a.Desk? && s.up && s.desk != []) && !(a.Door? && s.up && s.door != [])
    ensures InvitesRecorded(s, [a], Step(c, s, a)) && Step(c, s, a).disk.key == s.disk.key
  {
  }

  lemma {:induction false} InvitesComeRecorded(c: Config, s: State, run: seq<Action>)
    requires Inv(s)
    ensures InvitesRecorded(s, run, Run(c, s, run))
  {
    if run != [] {
      var init := run[..|run| - 1];
      InvitesComeRecorded(c, s, init);
      RunKeeps(c, s, init);
      StepInvites(c, Run(c, s, init), run[|run| - 1]);
      StepJournal(c, Run(c, s, init), run[|run| - 1]);
      OnRecordStays(Run(c, s, init).journal, Run(c, s, run).journal);
      assert run == init + [run[|run| - 1]];
    }
  }

  lemma {:induction false} KeyComesRecorded(c: Config, s: State, run: seq<Action>)
    requires Inv(s)
    ensures KeyRecorded(s, Run(c, s, run))
  {
    if run != [] {
      var init := run[..|run| - 1];
      KeyComesRecorded(c, s, init);
      RunKeeps(c, s, init);
      StepInvites(c, Run(c, s, init), run[|run| - 1]);
      StepJournal(c, Run(c, s, init), run[|run| - 1]);
      OnRecordStays(Run(c, s, init).journal, Run(c, s, run).journal);
    }
  }

  /** Nothing takes the process down. */
  predicate StaysUp(run: seq<Action>) {
    forall a | a in run :: !a.Crash? && (a.Desk? || a.Door? ==> !a.outcome.Dies?)
  }

  lemma StepLeaves(c: Config, s: State, a: Action)
    requires Inv(s) && s.up && StaysUp([a])
    ensures var s' := Step(c, s, a);
            s'.up && forall p | p in s.people :: p in s'.people || RemovedOnRecord(p, s'.journal)
  {
    assert a in [a];
    if a.Desk? && s.desk != [] { assert Ok(s, s.desk[0]); }
    if a.Door? && s.door != [] { assert s.door[0] in s.door; }
  }

  /** While the server is up, nobody leaves the list it admits by without a record of their removal,
      with their name, role and key. */
  lemma {:induction false} LeavesOnRecord(c: Config, s: State, run: seq<Action>)
    requires Inv(s) && s.up && StaysUp(run)
    ensures var s' := Run(c, s, run);
            s'.up && forall p | p in s.people :: p in s'.people || RemovedOnRecord(p, s'.journal)
  {
    if run != [] {
      var init, a := run[..|run| - 1], run[|run| - 1];
      assert forall b | b in init :: b in run;
      LeavesOnRecord(c, s, init);
      RunKeeps(c, s, init);
      assert a in run && forall b | b in [a] :: b in run;
      StepLeaves(c, Run(c, s, init), a);
      StepJournal(c, Run(c, s, init), a);
      OnRecordStays(Run(c, s, init).journal, Run(c, s, run).journal);
    }
  }

  /** A file has the content it had, or one that is on record. */
  predicate FilesRecorded(s: State, s': State) {
    && (forall name | name in s.disk.genomes :: name in s'.disk.genomes)
    && (forall name | name in s'.disk.genomes ::
          || (name in s.disk.genomes && s'.disk.genomes[name] == s.disk.genomes[name])
          || FileOnRecord(name, s'.disk.genomes[name], s'.journal))
  }

  lemma StepFiles(c: Config, s: State, a: Action)
    requires Inv(s)
    ensures FilesRecorded(s, Step(c, s, a))
  {
    if a.Door? && s.up && s.door != [] {
      assert Ok(s, s.door[0]);
    } else {
      GenomesUntouched(c, s, a);
    }
  }

  lemma GenomesUntouched(c: Config, s: State, a: Action)
    requires ForDesk(s.desk) && !(a.Door? && s.up && s.door != [])
    ensures Step(c, s, a).disk.genomes == s.disk.genomes
  {
    if a.Desk? && s.desk != [] { assert s.desk[0] in s.desk; }
  }

  lemma {:induction false} FilesComeRecorded(c: Config, s: State, run: seq<Action>)
    requires Inv(s)
    ensures FilesRecorded(s, Run(c, s, run))
  {
    if run != [] {
      var init := run[..|run| - 1];
      FilesComeRecorded(c, s, init);
      RunKeeps(c, s, init);
      StepFiles(c, Run(c, s, init), run[|run| - 1]);
      StepJournal(c, Run(c, s, init), run[|run| - 1]);
      OnRecordStays(Run(c, s, init).journal, Run(c, s, run).journal);
    }
  }

  // ----- Files keep their content -----

  /** A file taken in under a name already here, with other content: it passes every test, and the file
      of that name could not be stated. */
  predicate Overwrites(s: State, q: Request) {
    && q.Incoming? && !q.stats && q.file in s.disk.genomes
    && (q.peer.role.Peer? || q.peer.role.Owner?) && ValidName(q.file)
    && q.arrived.Some? && q.stated == Some(DigestOf(q.arrived.value))
    && q.arrived.value != s.disk.genomes[q.file]
  }

  /** A run in which no request overwrites. */
  predicate NeverOverwrites(c: Config, s: State, run: seq<Action>) {
    run == []
    || (NeverOverwrites(c, s, run[..|run| - 1])
        && (run[|run| - 1].Begin? ==> !Overwrites(Run(c, s, run[..|run| - 1]), run[|run| - 1].request)))
  }

  lemma {:induction false} NeverInParts(c: Config, s: State, one: seq<Action>, two: seq<Action>)
    requires NeverOverwrites(c, s, one + two)
    ensures NeverOverwrites(c, s, one) && NeverOverwrites(c, Run(c, s, one), two)
    decreases |two|
  {
    if two == [] {
      assert one + two == one;
    } else {
      var n := |two| - 1;
      assert (one + two)[..|one + two| - 1] == one + two[..n];
      NeverInParts(c, s, one, two[..n]);
      RunJoined(c, s, one, two[..n]);
    }
  }

  /** What is about to be kept changes no file. */
  predicate DoorKeeps(s: State) {
    && (forall i | 0 <= i < |s.door| - 1 :: !s.door[i].KeepFile?)
    && (forall w | w in s.door && w.KeepFile? && w.name in s.disk.genomes :: s.disk.genomes[w.name] == w.blob)
  }

  /** No file changes, and none vanishes. */
  predicate FilesKept(s: State, s': State) {
    forall name | name in s.disk.genomes :: name in s'.disk.genomes && s'.disk.genomes[name] == s.disk.genomes[name]
  }

  lemma WriteKeepsFiles(s: State, o: Outcome)
    requires DoorKeeps(s) && s.up && s.door != []
    ensures var s' := Write1(s.(door := if o.Happens? then s.door[1..] else []), s.door[0], o);
            FilesKept(s, s') && DoorKeeps(s')
  {
    assert s.door[0] in s.door;
    if |s.door| > 1 { assert !s.door[0].KeepFile?; }
    assert forall w | w in s.door[1..] :: w in s.door;
  }

  lemma BeginKeepsFiles(c: Config, s: State, q: Request)
    requires DoorKeeps(s) && !Overwrites(s, q)
    ensures Begun(c, s, q).disk == s.disk && DoorKeeps(Begun(c, s, q))
  {
  }

  lemma StepKeepsFiles(c: Config, s: State, a: Action)
    requires Inv(s) && DoorKeeps(s) && (a.Begin? ==> !Overwrites(s, a.request))
    ensures FilesKept(s, Step(c, s, a)) && DoorKeeps(Step(c, s, a))
  {
    if a.Door? && s.up && s.door != [] {
      WriteKeepsFiles(s, a.outcome);
    } else if a.Begin? {
      BeginKeepsFiles(c, s, a.request);
    } else {
      GenomesUntouched(c, s, a);
      DoorUntouched(c, s, a);
    }
  }

  lemma DoorUntouched(c: Config, s: State, a: Action)
    requires !(a.Door? && s.up && s.door != []) && !a.Begin?
    ensures Step(c, s, a).door == s.door || Step(c, s, a).door == []
  {
  }

  /** While no request overwrites, no name already in the genome directory changes content. */
  lemma {:induction false} FilesStay(c: Config, s: State, run: seq<Action>)
    requires Inv(s) && DoorKeeps(s) && NeverOverwrites(c, s, run)
    ensures FilesKept(s, Run(c, s, run)) && DoorKeeps(Run(c, s, run))
  {
    if run != [] {
      var init := run[..|run| - 1];
      FilesStay(c, s, init);
      RunKeeps(c, s, init);
      StepKeepsFiles(c, Run(c, s, init), run[|run| - 1]);
    }
  }

  // ----- People and invites -----

  /** Keys stay pairwise distinct; whoever is listed was admitted on an invite's code, and no code
      admits twice. */
  lemma PeopleAndInvites(c: Config, s: State, run: seq<Action>)
    requires Empty(s)
    ensures var s' := Run(c, s, run);
            && Distinct(s'.people) && Distinct(s'.disk.people)
            && AllAdmitted(s'.past, s'.people) && AllAdmitted(s'.past, s'.disk.people)
            && (forall i, j | 0 <= i < j < |s'.past.admissions| ::
                  s'.past.admissions[i].code != s'.past.admissions[j].code)
            && (forall code | code in s'.disk.invites :: !Redeemed(s'.past, code))
  {
    RunKeeps(c, s, run);
  }

  /** Another server has its place for a time, and nobody else's runs out. */
  predicate Termed(people: seq<Person>) { forall p | p in people :: p.role.Peer? <==> p.expiresAt.Some? }

  predicate AllTermed(s: State) {
    && Termed(s.people) && Termed(s.disk.people)
    && forall w | w in s.desk && w.SavePeople? :: Termed(w.people)
  }

  lemma BeginTermed(c: Config, s: State, q: Request)
    requires AllTermed(s)
    ensures AllTermed(Begun(c, s, q))
  {
    if q.Remove? && s.desk == [] && LastOf(s.people, q.key) >= 0 {
      StaysOrLeaves(s.people, LastOf(s.people, q.key));
    }
  }

  lemma StepTermed(c: Config, s: State, a: Action)
    requires AllTermed(s) && ForDoor(s.door)
    ensures AllTermed(Step(c, s, a))
  {
    if a.Begin? {
      if s.up { BeginTermed(c, s, a.request); }
    } else if a.Desk? && s.up && s.desk != [] {
      WriteTermed(s, a.outcome);
    } else {
      if a.Door? && s.up && s.door != [] { assert s.door[0] in s.door; }
    }
  }

  lemma WriteTermed(s: State, o: Outcome)
    requires AllTermed(s) && s.desk != []
    ensures AllTermed(Write1(s.(desk := if o.Happens? then s.desk[1..] else []), s.desk[0], o))
  {
    assert s.desk[0] in s.desk;
    assert forall w | w in s.desk[1..] :: w in s.desk;
  }

  /** On every run, the places that run out are exactly those of other servers. */
  lemma {:induction false} PeersExpire(c: Config, s: State, run: seq<Action>)
    requires Inv(s) && AllTermed(s)
    ensures AllTermed(Run(c, s, run))
  {
    if run != [] {
      var init := run[..|run| - 1];
      PeersExpire(c, s, init);
      RunKeeps(c, s, init);
      StepTermed(c, Run(c, s, init), run[|run| - 1]);
    }
  }

  /** The operator key is written at most once: a key file that is there never changes. */
  lemma {:induction false} KeyGivenOnce(c: Config, s: State, run: seq<Action>)
    requires Inv(s) && !s.disk.key.NoKey?
    ensures Run(c, s, run).disk.key == s.disk.key
  {
    if run != [] {
      var init := run[..|run| - 1];
      KeyGivenOnce(c, s, init);
      RunKeeps(c, s, init);
      StepKey(c, Run(c, s, init), run[|run| - 1]);
    }
  }

  lemma StepKey(c: Config, s: State, a: Action)
    requires Inv(s) && !s.disk.key.NoKey?
    ensures Step(c, s, a).disk.key == s.disk.key
  {
    if a.Door? && s.door != [] { assert s.door[0] in s.door; }
  }

  // ----- The holder of the stop stays -----

  /** The key file names k, and k is on the list, on every copy of it. */
  predicate HolderListed(s: State, k: Key) {
    && s.disk.key == Holder(k) && Lists(s.disk.people, k) && (s.up ==> Lists(s.people, k))
    && (forall w | w in s.desk :: w.SavePeople? ==> Lists(w.people, k))
  }

  /** A removal while the key file could not be read. */
  predicate Blind(a: Action) { a.Begin? && a.request.Remove? && !a.request.keyReads }

  lemma ListsStay(people: seq<Person>, k: Key, i: nat)
    requires Lists(people, k) && i < |people| && people[i].key != k
    ensures Lists(people[..i] + people[i + 1..], k)
  {
    var rest := people[..i] + people[i + 1..];
    var p :| p in people && p.key == k;
    var j :| 0 <= j < |people| && people[j] == p;
    assert rest[if j < i then j else j - 1] == p;
  }

  lemma BeginHolder(c: Config, s: State, q: Request, k: Key)
    requires c.stopConfigured && HolderListed(s, k) && s.up && (q.Remove? ==> q.keyReads)
    ensures HolderListed(Begun(c, s, q), k)
  {
    if q.Remove? && s.desk == [] {
      var i := LastOf(s.people, q.key);
      if q.key != k && i >= 0 { ListsStay(s.people, k, i); }
    }
    if q.Join? && s.desk == [] {
      var p :| p in s.people && p.key == k;
      var ws := JoinWrites(c, s, q.key, q.code, q.now, q.stats);
      assert forall w | w in ws :: w.SavePeople? ==> p in w.people;
    }
  }

  lemma WriteHolder(s: State, o: Outcome, k: Key)
    requires HolderListed(s, k) && s.up && s.desk != [] && Ok(s, s.desk[0])
    ensures HolderListed(Write1(s.(desk := if o.Happens? then s.desk[1..] else []), s.desk[0], o), k)
  {
    assert s.desk[0] in s.desk;
    assert forall w | w in s.desk[1..] :: w in s.desk;
  }

  lemma StepHolder(c: Config, s: State, a: Action, k: Key)
    requires c.stopConfigured && Inv(s) && HolderListed(s, k) && !Blind(a)
    ensures HolderListed(Step(c, s, a), k)
  {
    if a.Begin? {
      if s.up { BeginHolder(c, s, a.request, k); }
    } else if a.Desk? && s.up && s.desk != [] {
      WriteHolder(s, a.outcome, k);
    } else {
      OthersHolder(c, s, a, k);
    }
  }

  lemma OthersHolder(c: Config, s: State, a: Action, k: Key)
    requires HolderListed(s, k) && ForDoor(s.door) && !a.Begin? && !(a.Desk? && s.up && s.desk != [])
    ensures HolderListed(Step(c, s, a), k)
  {
    if a.Door? && s.door != [] { assert s.door[0] in s.door; }
  }

  /** Once listed, the holder of the operator key is never removed, over restarts and failures,
      unless a removal finds the key file unreadable. */
  lemma {:induction false} HolderStays(c: Config, s: State, run: seq<Action>, k: Key)
    requires c.stopConfigured && Inv(s) && HolderListed(s, k) && forall a | a in run :: !Blind(a)
    ensures HolderListed(Run(c, s, run), k)
  {
    if run != [] {
      var init := run[..|run| - 1];
      HolderStays(c, s, init, k);
      RunKeeps(c, s, init);
      StepHolder(c, Run(c, s, init), run[|run| - 1], k);
    }
  }

  // ----- The serials of the stop -----

  predicate Increasing(lists: seq<ListBytes>) {
    && (forall list | list in lists :: list.StopList?)
    && (forall i, j | 0 <= i < j < |lists| :: lists[i].serial < lists[j].serial)
  }

  /** list may be loaded under the key in the key file. */
  predicate Loads(c: Config, s: State, list: ListBytes) {
    s.disk.key.Holder? && s.disk.key.key.suite in c.suites && Parses(c, list, s.disk.key.key)
  }

  predicate Newer(s: State, list: ListBytes) {
    list.StopList? && forall prior | prior in s.past.lists :: prior.StopList? && prior.serial < list.serial
  }

  predicate SerialsGood(c: Config, s: State) {
    && Increasing(s.past.lists) && (forall list | list in s.past.lists :: Loads(c, s, list))
    && (forall w | w in s.desk :: w.SaveStop? ==> Loads(c, s, w.list) && Newer(s, w.list))
    && (forall i, j | 0 <= i < j < |s.desk| :: !(s.desk[i].SaveStop? && s.desk[j].SaveStop?))
  }

  /** A stop handled while the list in force could not be read, that the holder signed, and that is no
      newer than that list. */
  predicate RollsBack(c: Config, s: State, q: Request) {
    && c.stopConfigured && q.Stop? && q.keyReads && !q.listReads && Loads(c, s, q.list)
    && q.list.serial <= SerialInForce(c, s.disk, s.disk.key.key, true)
  }

  /** A run in which every stop reads the list in force, or is newer all the same. */
  predicate NeverRollsBack(c: Config, s: State, run: seq<Action>) {
    run == []
    || (NeverRollsBack(c, s, run[..|run| - 1])
        && (run[|run| - 1].Begin? ==> !RollsBack(c, Run(c, s, run[..|run| - 1]), run[|run| - 1].request)))
  }

  lemma StopBegins(c: Config, s: State, q: Request)
    requires Inv(s) && SerialsGood(c, s) && q.Stop? && !RollsBack(c, s, q)
    ensures var ws := StopWrites(c, s, q.who, q.list, q.keyReads, q.listReads);
            forall w | w in ws :: w.SaveStop? ==> Loads(c, s, w.list) && Newer(s, w.list)
  {
    var ws := StopWrites(c, s, q.who, q.list, q.keyReads, q.listReads);
    if ws != [] && s.past.lists != [] { LastIsNewest(c, s); }
  }

  /** The list in force is the newest ever written. */
  lemma LastIsNewest(c: Config, s: State)
    requires Inv(s) && SerialsGood(c, s) && s.past.lists != []
    ensures var last := s.past.lists[|s.past.lists| - 1];
            && last.StopList? && s.disk.stop == Some(last) && Loads(c, s, last)
            && SerialInForce(c, s.disk, s.disk.key.key, true) == last.serial
            && forall prior | prior in s.past.lists :: prior.serial <= last.serial
  {
    var lists := s.past.lists;
    assert lists[|lists| - 1] in lists;
    forall prior | prior in lists ensures prior.serial <= lists[|lists| - 1].serial {
      var i :| 0 <= i < |lists| && lists[i] == prior;
    }
  }

  /** Nothing written: the key, the lists, and no more left to write than before. */
  lemma SameSerials(c: Config, s: State, s': State)
    requires SerialsGood(c, s) && s'.past.lists == s.past.lists && s'.disk.key == s.disk.key
    requires s'.desk == s.desk || s'.desk == [] || (s.desk != [] && s'.desk == s.desk[1..])
    ensures SerialsGood(c, s')
  {
    forall w | w in s'.desk ensures w in s.desk {}
  }

  lemma ListSerials(c: Config, s: State, s': State, list: ListBytes)
    requires SerialsGood(c, s) && s'.past.lists == s.past.lists + [list] && s'.disk.key == s.disk.key
    requires Loads(c, s, list) && Newer(s, list)
    requires forall w | w in s'.desk :: !w.SaveStop?
    ensures SerialsGood(c, s')
  {
    var lists := s.past.lists;
    forall i | 0 <= i < |lists| ensures lists[i].serial < list.serial { assert lists[i] in lists; }
  }

  /** The key is given while no list is written or about to be. */
  lemma KeySerials(c: Config, s: State, s': State)
    requires SerialsGood(c, s) && s.disk.key.NoKey? && s'.past.lists == s.past.lists
    requires forall w | w in s'.desk :: w in s.desk
    ensures SerialsGood(c, s')
  {
    assert s.past.lists == [] || s.past.lists[0] in s.past.lists;
    forall i, j | 0 <= i < j < |s'.desk| ensures !(s'.desk[i].SaveStop? && s'.desk[j].SaveStop?) {
      assert s'.desk[i] in s'.desk;
    }
  }

  lemma WriteSerials(c: Config, s: State, o: Outcome)
    requires s.desk != [] && Ok(s, s.desk[0]) && SerialsGood(c, s)
    ensures SerialsGood(c, Write1(s.(desk := if o.Happens? then s.desk[1..] else []), s.desk[0], o))
  {
    var w := s.desk[0];
    var s' := Write1(s.(desk := if o.Happens? then s.desk[1..] else []), w, o);
    assert w in s.desk;
    if w.SaveStop? && s'.past.lists != s.past.lists {
      ListSerials(c, s, s', w.list);
    } else if w.GiveKey? {
      KeySerials(c, s, s');
    } else {
      SameSerials(c, s, s');
    }
  }

  /** A request other than a stop decides on no list. */
  lemma NoStopBegins(c: Config, s: State, q: Request)
    requires !q.Stop?
    ensures var s' := Begun(c, s, q);
            && s'.past.lists == s.past.lists && s'.disk.key == s.disk.key
            && (s'.desk == s.desk || forall w | w in s'.desk :: !w.SaveStop?)
  {
  }

  /** A list of writes with at most one stop list in it, and that one newer. */
  lemma DeskSerials(c: Config, s: State, s': State)
    requires SerialsGood(c, s) && s'.past.lists == s.past.lists && s'.disk.key == s.disk.key
    requires || (|s'.desk| <= 2 && (|s'.desk| == 2 ==> s'.desk[0].Emit?))
             || (forall w | w in s'.desk :: !w.SaveStop?)
    requires forall w | w in s'.desk :: w.SaveStop? ==> Loads(c, s, w.list) && Newer(s, w.list)
    ensures SerialsGood(c, s')
  {
    forall i, j | 0 <= i < j < |s'.desk| ensures !(s'.desk[i].SaveStop? && s'.desk[j].SaveStop?) {
      assert s'.desk[i] in s'.desk;
    }
  }

  lemma BeginSerials(c: Config, s: State, q: Request)
    requires Inv(s) && SerialsGood(c, s) && !RollsBack(c, s, q)
    ensures SerialsGood(c, Begun(c, s, q))
  {
    var s' := Begun(c, s, q);
    if q.Stop? && s.desk == [] {
      StopBegins(c, s, q);
      DeskSerials(c, s, s');
    } else if q.Stop? {
      SameSerials(c, s, s');
    } else {
      NoStopBegins(c, s, q);
      if s'.desk == s.desk { SameSerials(c, s, s'); } else { DeskSerials(c, s, s'); }
    }
  }

  lemma StepSerials(c: Config, s: State, a: Action)
    requires Inv(s) && SerialsGood(c, s) && (a.Begin? ==> !RollsBack(c, s, a.request))
    ensures SerialsGood(c, Step(c, s, a))
  {
    if a.Begin? {
      if s.up { BeginSerials(c, s, a.request); }
    } else if a.Desk? && s.up && s.desk != [] {
      WriteSerials(c, s, a.outcome);
    } else {
      if a.Door? && s.door != [] { assert s.door[0] in s.door; }
      SameSerials(c, s, Step(c, s, a));
    }
  }

  /** While no stop rolls back the serials written strictly increase, and the list on disk is the last
      of them. */
  lemma {:induction false} SerialsIncrease(c: Config, s: State, run: seq<Action>)
    requires Inv(s) && SerialsGood(c, s) && NeverRollsBack(c, s, run)
    ensures SerialsGood(c, Run(c, s, run))
  {
    if run != [] {
      var init := run[..|run| - 1];
      SerialsIncrease(c, s, init);
      RunKeeps(c, s, init);
      StepSerials(c, Run(c, s, init), run[|run| - 1]);
    }
  }

  lemma StopSerials(c: Config, s: State, run: seq<Action>)
    requires Empty(s) && NeverRollsBack(c, s, run)
    ensures Increasing(Run(c, s, run).past.lists)
  {
    SerialsIncrease(c, s, run);
  }

  /** The lists written stay written. */
  lemma {:induction false} ListsOnlyGrow(c: Config, s: State, run: seq<Action>)
    ensures s.past.lists <= Run(c, s, run).past.lists
  {
    if run != [] {
      ListsOnlyGrow(c, s, run[..|run| - 1]);
      StepLists(c, Run(c, s, run[..|run| - 1]), run[|run| - 1]);
    }
  }

  lemma StepLists(c: Config, s: State, a: Action)
    ensures s.past.lists <= Step(c, s, a).past.lists
  {
  }

  lemma {:induction false} RunFirst(c: Config, s: State, a: Action, run: seq<Action>)
    ensures Run(c, s, [a] + run) == Run(c, Step(c, s, a), run)
  {
    if run == [] {
      assert [a] + run == [a] && [a][..0] == [];
    } else {
      assert ([a] + run)[..|run|] == [a] + run[..|run| - 1];
      RunFirst(c, s, a, run[..|run| - 1]);
    }
  }

  lemma {:induction false} RunJoined(c: Config, s: State, one: seq<Action>, two: seq<Action>)
    ensures Run(c, s, one + two) == Run(c, Run(c, s, one), two)
  {
    if two == [] {
      assert one + two == one;
    } else {
      assert (one + two)[..|one + two| - 1] == one + two[..|two| - 1];
      RunJoined(c, s, one, two[..|two| - 1]);
    }
  }
}
