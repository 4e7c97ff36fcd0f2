/** The operator's stop source called by many: it reads the file before it takes its lock, so callers
    can overtake each other in between. */
module StopRace {
  import opened Options
  import opened StopSource

  /** calls holds what each caller loaded before it came to the lock. */
  datatype Raw = Raw(file: Loaded, highest: nat, calls: map<nat, Loaded>, answers: seq<Answer>)

  datatype RawTurn = FileSet(loaded: Loaded) | Load(caller: nat) | Compare(caller: nat)

  function RawStep(s: Raw, t: RawTurn): Raw {
    match t
    case FileSet(loaded) => s.(file := loaded)
    case Load(w) => if w in s.calls then s else s.(calls := s.calls[w := s.file])
    case Compare(w) =>
      if w !in s.calls then s
      else
        var loaded := s.calls[w];
        s.(highest := Raised(s.highest, loaded), calls := s.calls - {w},
           answers := s.answers + [Compared(s.highest, loaded)])
  }

  function RawRun(s: Raw, run: seq<RawTurn>): Raw {
    if run == [] then s else RawStep(RawRun(s, run[..|run| - 1]), run[|run| - 1])
  }

  /** Whatever is written to the file and however the callers interleave, an older list is never
      returned after a newer one. */
  lemma {:induction false} RawNeverFalls(s: Raw, run: seq<RawTurn>)
    requires NeverFalls(s.answers) && AtMost(s.answers, s.highest)
    ensures var s' := RawRun(s, run);
            NeverFalls(s'.answers) && AtMost(s'.answers, s'.highest) && s.highest <= s'.highest
  {
    if run != [] {
      RawNeverFalls(s, run[..|run| - 1]);
      var s1, t := RawRun(s, run[..|run| - 1]), run[|run| - 1];
    }
  }

  /** The source after the first t turns. */
  function At(s: Raw, run: seq<RawTurn>, t: nat): Raw
    requires t <= |run|
  {
    RawRun(s, run[..t])
  }

  lemma AtNext(s: Raw, run: seq<RawTurn>, t: nat)
    requires t < |run|
    ensures At(s, run, t + 1) == RawStep(At(s, run, t), run[t])
  {
    assert run[..t + 1][..t] == run[..t];
  }

  /** The lists in the file only rise, and none is older than what the source has consulted. */
  predicate Rising(s: Raw, run: seq<RawTurn>) {
    && (forall t | 0 <= t <= |run| && At(s, run, t).file.Stop? :: s.highest <= At(s, run, t).file.serial)
    && (forall i, j | 0 <= i <= j <= |run| && At(s, run, i).file.Stop? && At(s, run, j).file.Stop? ::
          At(s, run, i).file.serial <= At(s, run, j).file.serial)
  }

  /** w's load at turn a is the one it still holds at turn t. */
  predicate Holds(s: Raw, run: seq<RawTurn>, w: nat, a: nat, t: nat) {
    && a < t <= |run| && run[a] == Load(w) && w !in At(s, run, a).calls
    && forall i | a < i < t :: run[i] != Compare(w)
  }

  /** Before turn t, v loaded at b and compared what it loaded at d. */
  predicate Consults(s: Raw, run: seq<RawTurn>, v: nat, b: nat, d: nat, t: nat) {
    d < t <= |run| && Holds(s, run, v, b, d) && run[d] == Compare(v)
  }

  /** Between w's load at a and turn t, another caller loaded a newer list and compared it. */
  predicate Overtaken(s: Raw, run: seq<RawTurn>, w: nat, a: nat, t: nat, v: nat, b: nat, d: nat) {
    && a < b && v != w && Consults(s, run, v, b, d, t)
    && At(s, run, a).file.Stop? && At(s, run, b).file.Stop? && At(s, run, a).file.serial < At(s, run, b).file.serial
  }

  lemma {:induction false} HeldIsLoaded(s: Raw, run: seq<RawTurn>, w: nat, a: nat, t: nat)
    requires Holds(s, run, w, a, t)
    ensures w in At(s, run, t).calls && At(s, run, t).calls[w] == At(s, run, a).file
    decreases t
  {
    AtNext(s, run, t - 1);
    if a < t - 1 { HeldIsLoaded(s, run, w, a, t - 1); }
  }

  lemma {:induction false} CallIsHeld(s: Raw, run: seq<RawTurn>, w: nat, t: nat) returns (a: nat)
    requires s.calls == map[] && t <= |run| && w in At(s, run, t).calls
    ensures Holds(s, run, w, a, t)
    decreases t
  {
    assert t > 0;
    AtNext(s, run, t - 1);
    if w in At(s, run, t - 1).calls { a := CallIsHeld(s, run, w, t - 1); } else { a := t - 1; }
  }

  /** What the source has consulted was in the file when some caller loaded it, and it is the newest. */
  lemma {:induction false} HighestIsConsulted(s: Raw, run: seq<RawTurn>, t: nat)
    requires s.calls == map[] && t <= |run|
    ensures var highest := At(s, run, t).highest;
            && s.highest <= highest
            && (highest == s.highest
               || exists v, b, d :: Consults(s, run, v, b, d, t) && At(s, run, b).file == Stop(highest))
    decreases t
  {
    if t > 0 {
      HighestIsConsulted(s, run, t - 1);
      AtNext(s, run, t - 1);
      var before, turn := At(s, run, t - 1), run[t - 1];
      if before.highest != s.highest {
        var v, b, d :| Consults(s, run, v, b, d, t - 1) && At(s, run, b).file == Stop(before.highest);
        assert Consults(s, run, v, b, d, t);
      }
      if turn.Compare? && turn.caller in before.calls {
        var b := CallIsHeld(s, run, turn.caller, t - 1);
        HeldIsLoaded(s, run, turn.caller, b, t - 1);
        assert Consults(s, run, turn.caller, b, t - 1, t);
      }
    }
  }

  lemma {:induction false} ConsultedIsBelow(s: Raw, run: seq<RawTurn>, v: nat, b: nat, d: nat, t: nat)
    requires Consults(s, run, v, b, d, t) && At(s, run, b).file.Stop?
    ensures At(s, run, b).file.serial <= At(s, run, t).highest
    decreases t
  {
    AtNext(s, run, t - 1);
    if d == t - 1 { HeldIsLoaded(s, run, v, b, d); } else { ConsultedIsBelow(s, run, v, b, d, t - 1); }
  }

  /** Over a file that only rises, a caller is refused if and only if another caller loaded a newer
      list after it loaded, and came to the lock before it. Any other caller is given the very list it
      loaded, or told that it could not be read. */
  lemma RefusedExactly(s: Raw, run: seq<RawTurn>, w: nat, a: nat, t: nat)
    requires s.calls == map[] && Rising(s, run) && Holds(s, run, w, a, t)
    ensures w in At(s, run, t).calls
    ensures Compared(At(s, run, t).highest, At(s, run, t).calls[w]) == Rollback <==>
            exists v, b, d :: Overtaken(s, run, w, a, t, v, b, d)
    ensures var answer := Compared(At(s, run, t).highest, At(s, run, t).calls[w]);
            && (answer == Unreadable <==> At(s, run, a).file.Failed?)
            && (answer.Listed? ==> At(s, run, a).file == Stop(answer.serial)) && !answer.NoStop?
  {
    HeldIsLoaded(s, run, w, a, t);
    HighestIsConsulted(s, run, t);
    var highest, loaded := At(s, run, t).highest, At(s, run, a).file;
    if loaded.Stop? && loaded.serial < highest {
      var v, b, d :| Consults(s, run, v, b, d, t) && At(s, run, b).file == Stop(highest);
      assert a < b;
      assert Overtaken(s, run, w, a, t, v, b, d);
    }
    if exists v, b, d :: Overtaken(s, run, w, a, t, v, b, d) {
      var v, b, d :| Overtaken(s, run, w, a, t, v, b, d);
      ConsultedIsBelow(s, run, v, b, d, t);
    }
  }

  /** The caller of turn t is overtaken. */
  ghost predicate RefusedTurn(s: Raw, run: seq<RawTurn>, t: nat) {
    && t < |run| && run[t].Compare?
    && exists a, v, b, d :: Holds(s, run, run[t].caller, a, t) && Overtaken(s, run, run[t].caller, a, t, v, b, d)
  }

  /** Some caller of the first n turns is overtaken. */
  ghost predicate SomeRefused(s: Raw, run: seq<RawTurn>, n: nat) { exists t: nat :: t < n && RefusedTurn(s, run, t) }

  lemma OneMoreTurn(s: Raw, run: seq<RawTurn>, n: nat)
    ensures SomeRefused(s, run, n + 1) <==> SomeRefused(s, run, n) || RefusedTurn(s, run, n)
  {
    if SomeRefused(s, run, n + 1) {
      var t: nat :| t < n + 1 && RefusedTurn(s, run, t);
      assert t < n || t == n;
    }
    if SomeRefused(s, run, n) {
      var t: nat :| t < n && RefusedTurn(s, run, t);
      assert t < n + 1 && RefusedTurn(s, run, t);
    }
  }

  /** So over a file that only rises a whole run is free of refusals if and only if no caller in it is
      overtaken. */
  lemma {:induction false} RunRefusesExactly(s: Raw, run: seq<RawTurn>, n: nat)
    requires s.calls == map[] && Rising(s, run) && n <= |run|
    ensures Rollback in At(s, run, n).answers <==> Rollback in s.answers || SomeRefused(s, run, n)
    decreases n
  {
    if n == 0 {
      assert run[..0] == [];
    } else {
      RunRefusesExactly(s, run, n - 1);
      TurnRefusesExactly(s, run, n - 1);
      OneMoreTurn(s, run, n - 1);
    }
  }

  lemma TurnRefusesExactly(s: Raw, run: seq<RawTurn>, t: nat)
    requires s.calls == map[] && Rising(s, run) && t < |run|
    ensures var (before, after) := (At(s, run, t), At(s, run, t + 1));
            Rollback in after.answers <==> Rollback in before.answers || RefusedTurn(s, run, t)
  {
    AtNext(s, run, t);
    var before := At(s, run, t);
    if run[t].Compare? {
      var w := run[t].caller;
      if w in before.calls {
        var a := CallIsHeld(s, run, w, t);
        RefusedExactly(s, run, w, a, t);
        if RefusedTurn(s, run, t) {
          var a', v, b, d :| Holds(s, run, w, a', t) && Overtaken(s, run, w, a', t, v, b, d);
          RefusedExactly(s, run, w, a', t);
          HeldIsLoaded(s, run, w, a', t);
        }
        if Compared(before.highest, before.calls[w]) == Rollback {
          var v, b, d :| Overtaken(s, run, w, a, t, v, b, d);
          assert Holds(s, run, w, a, t) && Overtaken(s, run, w, a, t, v, b, d);
        }
      } else if RefusedTurn(s, run, t) {
        var a', v, b, d :| Holds(s, run, w, a', t) && Overtaken(s, run, w, a', t, v, b, d);
        HeldIsLoaded(s, run, w, a', t);
      }
    }
  }

  /** No list is written while a caller is between its load and the lock. */
  predicate Undisturbed(s: Raw, run: seq<RawTurn>) {
    forall t | 0 <= t < |run| && run[t].FileSet? :: At(s, run, t).calls == map[]
  }

  /** Then none is refused. */
  lemma UndisturbedNeverRefuses(s: Raw, run: seq<RawTurn>)
    requires s.calls == map[] && Rising(s, run) && Undisturbed(s, run) && Rollback !in s.answers
    ensures Rollback !in RawRun(s, run).answers
  {
    RunRefusesExactly(s, run, |run|);
    assert run[..|run|] == run;
    forall t | 0 <= t < |run| ensures !RefusedTurn(s, run, t) {
      if RefusedTurn(s, run, t) {
        var w := run[t].caller;
        var a, v, b, d :| Holds(s, run, w, a, t) && Overtaken(s, run, w, a, t, v, b, d);
        FileStays(s, run, w, a, t, b);
      }
    }
  }

  lemma {:induction false} FileStays(s: Raw, run: seq<RawTurn>, w: nat, a: nat, t: nat, b: nat)
    requires Undisturbed(s, run) && Holds(s, run, w, a, t) && a < b < t
    ensures At(s, run, b).file == At(s, run, a).file
    decreases b
  {
    AtNext(s, run, b - 1);
    if a < b - 1 {
      FileStays(s, run, w, a, t, b - 1);
      assert Holds(s, run, w, a, b - 1);
      HeldIsLoaded(s, run, w, a, b - 1);
    }
  }

  /** It happens: a list is refused as a rollback although the file was never rolled back. */
  lemma RefusedWithoutRollback(n: nat, m: nat)
    requires n < m
    ensures var (s, run) := (Raw(Stop(n), n, map[], []), [Load(1), FileSet(Stop(m)), Load(2), Compare(2), Compare(1)]);
            Rising(s, run) && RawRun(s, run).answers == [Listed(m), Rollback]
  {
    var s := Raw(Stop(n), n, map[], []);
    var run := [Load(1), FileSet(Stop(m)), Load(2), Compare(2), Compare(1)];
    assert At(s, run, 0) == s;
    AtNext(s, run, 0);
    AtNext(s, run, 1);
    AtNext(s, run, 2);
    AtNext(s, run, 3);
    AtNext(s, run, 4);
    assert run[..5] == run;
    assert forall t: nat | t <= 5 :: At(s, run, t).file == if t <= 1 then Stop(n) else Stop(m);
  }
}
