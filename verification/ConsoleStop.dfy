/** The console's stop source and the handler that writes the list it reads, together. */
module ConsoleStop {
  import opened Options
  import opened ConsoleSteps
  import opened ConsoleSafety
  import opened ConsoleTheorems
  import Source = StopSource

  /** The serials a run of the source's turns puts in the file. */
  function SerialsSet(turns: seq<Source.Turn>): seq<nat> {
    if turns == [] then []
    else
      var t, init := turns[|turns| - 1], SerialsSet(turns[..|turns| - 1]);
      if t.Set? && t.loaded.Stop? then init + [t.loaded.serial] else init
  }

  /** The file is written by the handler only: the serials set so far are those of the lists it has
      written so far. */
  predicate WrittenBy(turns: seq<Source.Turn>, lists: seq<ListBytes>) {
    && |SerialsSet(turns)| <= |lists|
    && forall i | 0 <= i < |SerialsSet(turns)| :: lists[i].StopList? && SerialsSet(turns)[i] == lists[i].serial
  }

  function LastSet(turns: seq<Source.Turn>): nat {
    var set0 := SerialsSet(turns);
    if set0 == [] then 0 else set0[|set0| - 1]
  }

  lemma {:induction false} WrittenRises(turns: seq<Source.Turn>, lists: seq<ListBytes>)
    requires WrittenBy(turns, lists) && Increasing(lists)
    ensures Source.Rises(turns, 0) && Source.Top(turns, 0) == LastSet(turns)
  {
    if turns != [] {
      var init := turns[..|turns| - 1];
      var all, before := SerialsSet(turns), SerialsSet(init);
      assert forall i | 0 <= i < |before| :: before[i] == all[i];
      WrittenRises(init, lists);
      if before != [] && |all| > |before| {
        assert lists[|before| - 1].serial < lists[|before|].serial;
      }
    }
  }

  /** With the handler the only writer of the list, from a server nobody has joined, in which no stop
      rolls back: whatever calls come to the source and whenever they do, it refuses none as a
      rollback and never returns an older list after a newer one. */
  lemma SourceNeverRefuses(c: Config, s: State, run: seq<Action>, turns: seq<Source.Turn>, hasKey: bool)
    requires Empty(s) && NeverRollsBack(c, s, run) && WrittenBy(turns, Run(c, s, run).past.lists)
    ensures var answers := Source.Run(Source.Held(Source.Failed, hasKey, None, None, []), turns).answers;
            Source.Rollback !in answers && Source.NeverFalls(answers)
  {
    var start := Source.Held(Source.Failed, hasKey, None, None, []);
    StopSerials(c, s, run);
    WrittenRises(turns, Run(c, s, run).past.lists);
    Source.ConsoleNeverRefuses(start, turns, 0);
    Source.ConsoleNeverFalls(start, turns);
  }
}
