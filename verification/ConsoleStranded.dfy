/** The operator key given to somebody who is not on the people list, or on the list on disk alone:
    exactly when a join leaves it so, what becomes of it, and how it ends. */
module ConsoleStranded {
  import opened Options
  import opened ConsoleSteps
  import opened ConsoleSafety
  import opened ConsoleTheorems
  import opened ConsoleServers
  import opened ConsoleLimits

  /** The caller is about to be given the operator key. */
  predicate GivesKey(c: Config, s: State, key: Key, code: nat, now: int, stats: bool) {
    && !Lists(s.people, key) && code in s.disk.invites && s.disk.invites[code].Invite?
    && now <= s.disk.invites[code].expiresAt && s.disk.invites[code].role.Owner?
    && c.stopConfigured && stats && s.disk.key.NoKey?
  }

  /** The key is given, and the list in memory does not name its holder: if and only if the write of the
      key takes effect and the handler does not learn that the list was written. */
  lemma JoinLeavesOutExactly(c: Config, s: State, key: Key, code: nat, now: int, stats: bool, f: Fault)
    requires Inv(s) && s.up && s.desk == [] && GivesKey(c, s, key, code, now, stats)
    ensures var s' := Perform(s, JoinWrites(c, s, key, code, now, stats), f, 0);
            s'.disk.key == Holder(key) && !Lists(s'.people, key) <==> Takes(f, 2) && !(f.how.Happens? || f.at > 3)
  {
    var ws := JoinWrites(c, s, key, code, now, stats);
    PerformJoin(s, ws, f);
    LastListed(s.people, ws[3].people, key);
  }

  lemma LastListed(people: seq<Person>, saved: seq<Person>, key: Key)
    requires |saved| == |people| + 1 && saved[..|people|] == people && saved[|people|].key == key
    ensures Lists(saved, key)
  {
    assert saved[|people|] in saved;
  }

  /** A join strands the operator key if and only if it gives it, the write of the key takes effect, that
      of the list does not, and the list on disk does not name the caller already. */
  lemma JoinStrandsExactly(c: Config, s: State, key: Key, code: nat, now: int, stats: bool, f: Fault)
    requires Inv(s) && s.up && s.desk == [] && s.disk.key.NoKey?
    ensures var s' := Perform(s, JoinWrites(c, s, key, code, now, stats), f, 0);
            Stranded(s', key) <==>
            && GivesKey(c, s, key, code, now, stats) && Takes(f, 2) && !Takes(f, 3) && !Lists(s.disk.people, key)
  {
    var ws := JoinWrites(c, s, key, code, now, stats);
    if |ws| == 1 {
      PerformLast(s, ws, f, 0);
    } else if ws != [] {
      PerformJoin(s, ws, f);
      if |ws| == 4 { LastListed(s.people, ws[3].people, key); }
    }
  }

  /** And it leaves its caller on the list on disk alone, with the process up, if and only if the write of
      the list takes effect and is reported as failed, or does not and the list named them already. */
  lemma JoinHalfListsExactly(c: Config, s: State, key: Key, code: nat, now: int, stats: bool, f: Fault)
    requires Inv(s) && s.up && s.desk == [] && GivesKey(c, s, key, code, now, stats)
    ensures var s' := Perform(s, JoinWrites(c, s, key, code, now, stats), f, 0);
            HalfListed(s', key) <==>
            && f.how.Fails? && Takes(f, 2) && f.at <= 3 && (Takes(f, 3) || Lists(s.disk.people, key))
  {
    var ws := JoinWrites(c, s, key, code, now, stats);
    PerformJoin(s, ws, f);
    LastListed(s.people, ws[3].people, key);
  }

  // ----- Listed on disk alone -----

  /** The key's holder is on the list on disk, and not on the one in memory. */
  predicate HalfListed(s: State, k: Key) {
    s.up && s.disk.key == Holder(k) && Lists(s.disk.people, k) && !Lists(s.people, k)
  }

  /** The people list is written, whether the handler learns of it or not. */
  predicate Saves(s: State, a: Action) {
    s.up && a.Desk? && s.desk != [] && s.desk[0].SavePeople? && (a.outcome.Happens? || a.outcome.done)
  }

  /** The process is up after every step of the run. */
  predicate StaysUp(c: Config, s: State, run: seq<Action>) {
    Run(c, s, run).up && (run == [] || StaysUp(c, s, run[..|run| - 1]))
  }

  /** The people list is written before the process is next down. */
  predicate SavedUp(c: Config, s: State, run: seq<Action>) {
    run != []
    && (SavedUp(c, s, run[..|run| - 1])
        || (StaysUp(c, s, run[..|run| - 1]) && Saves(Run(c, s, run[..|run| - 1]), run[|run| - 1])))
  }

  /** A holder on the list on disk alone ends stranded if and only if the list is written, for whomever,
      before the process is next down; otherwise the next start lists them, in memory too. */
  lemma {:induction false} HalfListedEnds(c: Config, s: State, run: seq<Action>, k: Key)
    requires Inv(s) && c.stopConfigured && HalfListed(s, k) && NotAbout(s.desk, k)
    requires forall a | a in run :: !JoinOf(a, k) && !Blind(a)
    ensures var s' := Run(c, s, run);
            && (Stranded(s', k) <==> SavedUp(c, s, run))
            && (SavedUp(c, s, run) || StaysUp(c, s, run) ==> NotAbout(s'.desk, k))
            && (!SavedUp(c, s, run) && StaysUp(c, s, run) ==> HalfListed(s', k))
            && (!SavedUp(c, s, run) && !StaysUp(c, s, run) ==> HolderListed(s', k))
  {
    if run != [] {
      var init, a := run[..|run| - 1], run[|run| - 1];
      HalfListedEnds(c, s, init, k);
      RunKeeps(c, s, init);
      var t := Run(c, s, init);
      if SavedUp(c, s, init) {
        StepStranded(c, t, a, k);
      } else if StaysUp(c, s, init) {
        StepHalfListed(c, t, a, k);
      } else {
        StepHolder(c, t, a, k);
      }
    }
  }

  /** One step: the list written strands the holder, and the process gone leaves them to the next start. */
  lemma StepHalfListed(c: Config, s: State, a: Action, k: Key)
    requires Inv(s) && HalfListed(s, k) && NotAbout(s.desk, k) && !JoinOf(a, k)
    ensures AfterHalfListed(s, Step(c, s, a), Saves(s, a), k)
  {
    StepKey(c, s, a);
    if a.Begin? {
      BeginAbout(c, s, a.request, k);
    } else if a.Desk? && s.desk != [] {
      WriteAbout(s, a.outcome, k);
    } else {
      OthersAside(c, s, a);
    }
  }

  predicate AfterHalfListed(s: State, s': State, saved: bool, k: Key) {
    if saved then Stranded(s', k) && NotAbout(s'.desk, k)
    else if s'.up then HalfListed(s', k) && NotAbout(s'.desk, k)
    else HolderListed(s', k)
  }

  /** A write at the desk that does not name k: the list on disk loses k when it is that list, and the
      list in memory never gains it. */
  lemma WriteAbout(s: State, o: Outcome, k: Key)
    requires s.up && s.desk != [] && NotAbout(s.desk, k) && !Lists(s.people, k)
    ensures var s' := Write1(s.(desk := if o.Happens? then s.desk[1..] else []), s.desk[0], o);
            && NotAbout(s'.desk, k) && !Lists(s'.people, k) && (s'.up <==> !o.Dies?)
            && (!s'.up ==> s'.desk == [])
            && (if Saves(s, Desk(o)) then !Lists(s'.disk.people, k) else s'.disk.people == s.disk.people)
  {
    assert s.desk[0] in s.desk;
    assert forall w | w in s.desk[1..] :: w in s.desk;
    assert !Lists([], k);
  }

  /** A step that is no request and writes nothing at the desk leaves the people alone, or the process
      gone. */
  lemma OthersAside(c: Config, s: State, a: Action)
    requires ForDoor(s.door) && !a.Begin? && !(a.Desk? && s.desk != []) && s.up
    ensures var s' := Step(c, s, a);
            && s'.disk.people == s.disk.people
            && (if s'.up then s'.people == s.people && s'.desk == s.desk else s'.people == [] && s'.desk == [])
  {
    if a.Door? && s.door != [] { assert s.door[0] in s.door; }
  }

  lemma BeginAbout(c: Config, s: State, q: Request, k: Key)
    requires !Lists(s.people, k) && NotAbout(s.desk, k) && !(q.Join? && q.key == k)
    ensures var s' := Begun(c, s, q);
            && NotAbout(s'.desk, k) && s'.people == s.people && s'.disk == s.disk && s'.up == s.up
  {
    if q.Join? && s.desk == [] {
      var ws := JoinWrites(c, s, q.key, q.code, q.now, q.stats);
      forall w | w in ws && w.SavePeople? ensures !Lists(w.people, k) {}
    }
  }

  // ----- Stranded -----

  /** Once stranded it stays so, whatever else happens, until the same person joins again. */
  lemma {:induction false} StrandedStays(c: Config, s: State, run: seq<Action>, k: Key)
    requires Inv(s) && Stranded(s, k) && NotAbout(s.desk, k) && forall a | a in run :: !JoinOf(a, k)
    ensures var s' := Run(c, s, run); Stranded(s', k) && NotAbout(s'.desk, k)
  {
    if run != [] {
      var init := run[..|run| - 1];
      StrandedStays(c, s, init, k);
      RunKeeps(c, s, init);
      StepStranded(c, Run(c, s, init), run[|run| - 1], k);
    }
  }

  predicate JoinOf(a: Action, k: Key) { a.Begin? && a.request.Join? && a.request.key == k }

  /** No list about to be written names k. */
  predicate NotAbout(ws: seq<Write>, k: Key) { forall w | w in ws :: w.SavePeople? ==> !Lists(w.people, k) }

  lemma StepStranded(c: Config, s: State, a: Action, k: Key)
    requires Inv(s) && Stranded(s, k) && NotAbout(s.desk, k) && !JoinOf(a, k)
    ensures var s' := Step(c, s, a); Stranded(s', k) && NotAbout(s'.desk, k)
  {
    StepKey(c, s, a);
    if s.up && a.Begin? {
      BeginAbout(c, s, a.request, k);
    } else if s.up && a.Desk? && s.desk != [] {
      WriteAbout(s, a.outcome, k);
    } else if s.up {
      OthersAside(c, s, a);
    }
  }

  /** And it ends when they do: a fresh invite, redeemed by the same key, lists the holder. */
  lemma StrandedRecovers(c: Config, s: State, k: Key, code: nat, name: nat, role: Role, expiresAt: int, now: int)
    requires Inv(s) && Stranded(s, k) && s.up && s.desk == [] && code !in s.past.codes && now <= expiresAt
    ensures var placed := Step(c, s, Place(code, Invite(name, role, expiresAt)));
            HolderListed(Perform(placed, JoinWrites(c, placed, k, code, now, true), Fault(0, Happens), 0), k)
  {
    var placed := Step(c, s, Place(code, Invite(name, role, expiresAt)));
    var ws := JoinWrites(c, placed, k, code, now, true);
    PerformJoin(placed, ws, Fault(0, Happens));
    var saved := ws[2].people;
    assert saved[|saved| - 1].key == k && saved[|saved| - 1] in saved;
  }

  // ----- Reached -----

  lemma JoinStrands(c: Config, s: State, k: Key, f: Fault)
    requires Inv(s) && OwnerInvited(s) && c.stopConfigured && 1 !in s.past.codes
    requires f == Fault(3, Fails(false)) || f == Fault(3, Fails(true))
    ensures var s' := Run(c, s, Joins(k, f));
            && s'.up && s'.desk == [] && s'.people == [] && 1 !in s'.past.codes
            && (if f.how.done then HalfListed(s', k) else Stranded(s', k))
  {
    var ws := JoinWrites(c, s, k, 0, 0, true);
    assert !Lists(s.people, k);
    JoinRuns(c, s, k, f);
    PerformJoin(s, ws, f);
  }

  /** From an authority nobody has joined, a join can strand the key. */
  lemma StrandingReached(c: Config, s: State, k: Key)
    requires Empty(s) && s.disk.key.NoKey? && c.stopConfigured
    ensures exists run :: Stranded(Run(c, s, run), k)
  {
    var torn := Fault(3, Fails(false));
    Invited(c, s);
    JoinStrands(c, Run(c, s, INVITED), k, torn);
    RunJoined(c, s, INVITED, Joins(k, torn));
    assert Stranded(Run(c, s, INVITED + Joins(k, torn)), k);
  }

  /** It can leave the holder on the list on disk alone; and then a second person's join, in which
      nothing fails and every file is read, strands the key. */
  lemma HalfListingReached(c: Config, s: State, k: Key, other: Key)
    requires Empty(s) && s.disk.key.NoKey? && c.stopConfigured && other != k
    ensures var one := INVITED + Joins(k, Fault(3, Fails(true)));
            HalfListed(Run(c, s, one), k) && Stranded(Run(c, s, one + SecondJoin(other)), k)
  {
    var chmod := Fault(3, Fails(true));
    var one := INVITED + Joins(k, chmod);
    Invited(c, s);
    JoinStrands(c, Run(c, s, INVITED), k, chmod);
    RunJoined(c, s, INVITED, Joins(k, chmod));
    RunKeeps(c, s, one);
    SecondStrands(c, Run(c, s, one), k, other);
    RunJoined(c, s, one, SecondJoin(other));
  }

  /** A viewer is invited and joins, and nothing fails. */
  function SecondJoin(other: Key): seq<Action> {
    [Place(1, Invite(1, Viewer, 0))] + ([Begin(Join(other, 1, 0, true))] + AtDesk(Outcomes(3, Fault(0, Happens), 0)))
  }

  lemma SecondStrands(c: Config, s: State, k: Key, other: Key)
    requires Inv(s) && HalfListed(s, k) && s.desk == [] && s.people == [] && 1 !in s.past.codes && other != k
    ensures Stranded(Run(c, s, SecondJoin(other)), k)
  {
    var place, q, f := Place(1, Invite(1, Viewer, 0)), Join(other, 1, 0, true), Fault(0, Happens);
    var s1 := Step(c, s, place);
    var ws := JoinWrites(c, s1, other, 1, 0, true);
    RunFirst(c, s, place, [Begin(q)] + AtDesk(Outcomes(3, f, 0)));
    assert !Lists(s1.people, other) && |ws| == 3;
    HandlerIsRun(c, s1, q, f);
    assert Begun(c, s1, q).(desk := []) == s1;
    PerformJoin(s1, ws, f);
  }
}
