/** Where the stop list in force is read from: the operator's source, and the console's around it,
    which holds a lock of its own across the read. Any number of callers. */
module StopSource {
  import opened Options

  /** What loading the list gives. */
  datatype Loaded = Failed | Stop(serial: nat)

  datatype Answer = Listed(serial: nat) | Rollback | Unreadable | NoStop

  /** Under the lock: a serial older than one already consulted is refused. */
  function Compared(highest: nat, loaded: Loaded): Answer {
    if loaded.Failed? then Unreadable else if loaded.serial < highest then Rollback else Listed(loaded.serial)
  }

  function Raised(highest: nat, loaded: Loaded): nat {
    if Compared(highest, loaded).Listed? then loaded.serial else highest
  }

  /** The serials of the lists returned never fall. */
  predicate NeverFalls(answers: seq<Answer>) {
    forall i, j | 0 <= i < j < |answers| && answers[i].Listed? && answers[j].Listed? ::
      answers[i].serial <= answers[j].serial
  }

  predicate AtMost(answers: seq<Answer>, highest: nat) {
    forall a | a in answers :: a.Listed? ==> a.serial <= highest
  }

  // ----- The two closures -----

  class OperatorStopSource {
    var highest: nat

    constructor (first: nat)
      ensures highest == first
    {
      highest := first;
    }

    method Consult(loaded: Loaded) returns (answer: Answer)
      modifies this
      ensures answer == Compared(old(highest), loaded) && highest == Raised(old(highest), loaded)
      ensures old(highest) <= highest && (answer.Listed? ==> answer.serial == highest)
    {
      if loaded.Failed? { return Unreadable; }
      if loaded.serial < highest { return Rollback; }
      highest := loaded.serial;
      answer := Listed(loaded.serial);
    }
  }

  class ConsoleStopSource {
    var inner: Option<OperatorStopSource>

    constructor ()
      ensures inner.None?
    {
      inner := None;
    }

    /** One call, alone under its lock: first is what making the inner source loads, loaded what
        the source itself then loads. */
    method Consult(hasKey: bool, first: Loaded, loaded: Loaded) returns (answer: Answer)
      modifies this, if inner.Some? then {inner.value} else {}
      ensures old(inner.Some?) ==> inner == old(inner)
      ensures old(inner.Some?) ==>
                answer == Compared(old(inner.value.highest), loaded)
                && inner.value.highest == Raised(old(inner.value.highest), loaded)
      ensures old(inner.None?) ==> (inner.Some? <==> hasKey && first.Stop?)
      ensures old(inner.None?) && inner.Some? ==>
                fresh(inner.value)
                && answer == Compared(first.serial, loaded) && inner.value.highest == Raised(first.serial, loaded)
      ensures old(inner.None?) && inner.None? ==> answer == if hasKey then Unreadable else NoStop
      ensures answer.NoStop? ==> !hasKey && inner.None?
    {
      if inner.None? {
        if !hasKey { return NoStop; }
        if first.Failed? { return Unreadable; }
        var source := new OperatorStopSource(first.serial);
        inner := Some(source);
      }
      answer := inner.value.Consult(loaded);
    }
  }

  // ----- The console's source, called by many -----

  /** Where the call that holds the lock stands. */
  datatype Phase = Checking | Making | Loading | Comparing(loaded: Loaded)

  datatype Held = Held(file: Loaded, hasKey: bool, highest: Option<nat>, holder: Option<Phase>, answers: seq<Answer>)

  /** A caller enters when the lock is free; Advance is the next step of the one that holds it. */
  datatype Turn = Set(loaded: Loaded) | KeyGiven | Enter | Advance

  function Answered(s: Held, answer: Answer): Held { s.(holder := None, answers := s.answers + [answer]) }

  function Advanced(s: Held): Held {
    if s.holder.None? then s
    else
      match s.holder.value
      case Checking => if s.hasKey then s.(holder := Some(Making)) else Answered(s, NoStop)
      case Making =>
        if s.file.Failed? then Answered(s, Unreadable) else s.(highest := Some(s.file.serial), holder := Some(Loading))
      case Loading => s.(holder := Some(Comparing(s.file)))
      case Comparing(loaded) =>
        if s.highest.None? then s
        else Answered(s.(highest := Some(Raised(s.highest.value, loaded))), Compared(s.highest.value, loaded))
  }

  function Step(s: Held, t: Turn): Held {
    match t
    case Set(loaded) => s.(file := loaded)
    case KeyGiven => s.(hasKey := true)
    case Enter => if s.holder.Some? then s else s.(holder := Some(if s.highest.None? then Checking else Loading))
    case Advance => Advanced(s)
  }

  function Run(s: Held, run: seq<Turn>): Held {
    if run == [] then s else Step(Run(s, run[..|run| - 1]), run[|run| - 1])
  }

  /** The last serial set in the file, over a run that starts at top. */
  function Top(run: seq<Turn>, top: nat): nat {
    if run == [] then top
    else
      var t := run[|run| - 1];
      if t.Set? && t.loaded.Stop? then t.loaded.serial else Top(run[..|run| - 1], top)
  }

  /** Every list written is at least as new as the one before it. */
  predicate Rises(run: seq<Turn>, top: nat) {
    run == [] || (Rises(run[..|run| - 1], top)
                  && var t := run[|run| - 1];
                     (t.Set? && t.loaded.Stop? ==> t.loaded.serial >= Top(run[..|run| - 1], top)))
  }

  predicate Consistent(s: Held) {
    && NeverFalls(s.answers)
    && (s.highest.Some? ==> AtMost(s.answers, s.highest.value))
    && (s.highest.None? ==> forall a | a in s.answers :: !a.Listed?)
    && (s.holder.Some? && (s.holder.value.Loading? || s.holder.value.Comparing?) ==> s.highest.Some?)
    && (s.holder.Some? && (s.holder.value.Checking? || s.holder.value.Making?) ==> s.highest.None?)
  }

  lemma StepConsistent(s: Held, t: Turn)
    requires Consistent(s)
    ensures Consistent(Step(s, t))
  {
  }

  /** What a call finds that nothing disturbs: the list in the file, unless it is older than one already
      consulted or cannot be read; and nothing at all while nobody holds the key and no list was ever
      consulted. */
  function Found(s: Held): Answer {
    if s.highest.None? && !s.hasKey then NoStop
    else if s.file.Failed? then Unreadable
    else if s.highest.Some? && s.file.serial < s.highest.value then Rollback
    else Listed(s.file.serial)
  }

  const ALONE := [Enter] + [Advance, Advance, Advance, Advance]

  /** A call that enters while the lock is free, with nothing else in between, is answered with what it
      finds; and a list it is given is the newest consulted since. */
  lemma AloneAnswered(s: Held)
    requires Consistent(s) && s.holder.None?
    ensures var s' := Run(s, ALONE);
            && s'.holder.None? && s'.answers == s.answers + [Found(s)]
            && s'.highest == (if Found(s).Listed? then Some(Found(s).serial) else s.highest)
  {
    RunFirst(s, Enter, [Advance, Advance, Advance, Advance]);
    RunFour(Step(s, Enter), Advance, Advance, Advance, Advance);
  }

  lemma {:induction false} RunFirst(s: Held, t: Turn, run: seq<Turn>)
    ensures Run(s, [t] + run) == Run(Step(s, t), run)
  {
    if run == [] {
      assert [t] + run == [t] && [t][..0] == [];
    } else {
      assert ([t] + run)[..|run|] == [t] + run[..|run| - 1];
      RunFirst(s, t, run[..|run| - 1]);
    }
  }

  lemma RunFour(s: Held, a: Turn, b: Turn, d: Turn, e: Turn)
    ensures Run(s, [a, b, d, e]) == Step(Step(Step(Step(s, a), b), d), e)
  {
    assert [a, b, d, e][..3] == [a, b, d] && [a, b, d][..2] == [a, b] && [a, b][..1] == [a] && [a][..0] == [];
    assert Run(s, [a]) == Step(s, a);
    assert Run(s, [a, b]) == Step(Run(s, [a]), b);
    assert Run(s, [a, b, d]) == Step(Run(s, [a, b]), d);
  }

  /** The list that is loaded to make the inner source counts as consulted: what the file says a moment
      later is compared with it, and the console's call is answered accordingly. */
  lemma FirstLoadCounts(s: Held, later: Loaded)
    requires s.holder.None? && s.highest.None? && s.hasKey && s.file.Stop?
    ensures var s' := Run(s, [Enter, Advance] + [Advance, Set(later), Advance, Advance]);
            && s'.answers == s.answers + [Compared(s.file.serial, later)]
            && s'.highest == Some(Raised(s.file.serial, later)) && s'.holder.None?
  {
    var rest := [Advance, Set(later), Advance, Advance];
    assert [Enter, Advance] + rest == [Enter] + ([Advance] + rest);
    RunFirst(s, Enter, [Advance] + rest);
    RunFirst(Step(s, Enter), Advance, rest);
    RunFour(Step(Step(s, Enter), Advance), Advance, Set(later), Advance, Advance);
  }

  predicate UpToDate(s: Held, top: nat) {
    && (s.file.Stop? ==> s.file.serial == top)
    && (s.highest.Some? ==> s.highest.value <= top)
    && (s.holder.Some? && s.holder.value.Comparing? && s.holder.value.loaded.Stop? ==>
          s.highest.Some? && s.highest.value <= s.holder.value.loaded.serial <= top)
    && Rollback !in s.answers
  }

  lemma StepUpToDate(s: Held, t: Turn, top: nat)
    requires Consistent(s) && UpToDate(s, top)
    requires t.Set? && t.loaded.Stop? ==> t.loaded.serial >= top
    ensures UpToDate(Step(s, t), if t.Set? && t.loaded.Stop? then t.loaded.serial else top)
  {
  }

  /** Under any interleaving of callers and writes of the file, the console's source never returns
      an older list after a newer one. */
  lemma {:induction false} ConsoleNeverFalls(s: Held, run: seq<Turn>)
    requires Consistent(s)
    ensures Consistent(Run(s, run))
  {
    if run != [] {
      ConsoleNeverFalls(s, run[..|run| - 1]);
      StepConsistent(Run(s, run[..|run| - 1]), run[|run| - 1]);
    }
  }

  /** ... and while the serials written only rise it refuses none as a rollback. */
  lemma {:induction false} ConsoleNeverRefuses(s: Held, run: seq<Turn>, top: nat)
    requires Consistent(s) && UpToDate(s, top) && Rises(run, top)
    ensures UpToDate(Run(s, run), Top(run, top)) && Rollback !in Run(s, run).answers
  {
    if run != [] {
      ConsoleNeverRefuses(s, run[..|run| - 1], top);
      ConsoleNeverFalls(s, run[..|run| - 1]);
      StepUpToDate(Run(s, run[..|run| - 1]), run[|run| - 1], Top(run[..|run| - 1], top));
    }
  }

  /** Once the operator key exists no call is ever answered with the empty list. */
  lemma {:induction false} NoEmptyListAgain(s: Held, run: seq<Turn>)
    requires s.hasKey
    ensures var s' := Run(s, run);
            s'.hasKey && s.answers <= s'.answers && NoStop !in s'.answers[|s.answers|..]
  {
    if run != [] {
      NoEmptyListAgain(s, run[..|run| - 1]);
      var s1 := Run(s, run[..|run| - 1]);
      var s2 := Step(s1, run[|run| - 1]);
      assert s2.answers == s1.answers
             || s2.answers[|s.answers|..] == s1.answers[|s.answers|..] + [s2.answers[|s1.answers|]];
    }
  }
}
