/** The race of the writers is the daemon's: every run of the turns is a run of the writer's steps
    that keeps the same indices. */
module RotationRefinement {
  import opened Options
  import opened AuditLog
  import opened AuditWriter
  import opened AuditDaemon
  import Race = RotationBound

  /** The daemon serves at the indices of the race. */
  ghost predicate Follows(r: Resolver, w: State, s: Race.State) {
    Good(r, w) && w.proc.Serving? && w.proc.base == s.base && w.proc.n == s.n
  }

  /** What the environment chooses for one turn. */
  datatype Choice = Choice(kind: nat, payload: Payload, at: int, noise: Noise)

  /** The writer's steps of one turn of the chain's lock. */
  function StepsOf(bound: nat, s: Race.State, t: Race.Turn, choice: Choice): seq<Action> {
    if t.Append? then
      if t.writer in s.pending then []
      else [Append(choice.kind, choice.payload, choice.at, choice.noise.salt, choice.noise.image)]
    else if Race.Rotates(bound, s, t) then RotationSteps(NoFault, choice.noise)
    else []
  }

  /** The writer's steps of a whole run of turns. */
  function RunOf(bound: nat, s: Race.State, run: seq<Race.Turn>, choices: nat -> Choice): seq<Action> {
    if run == [] then []
    else
      var init := run[..|run| - 1];
      RunOf(bound, s, init, choices) + StepsOf(bound, Race.Run(bound, s, init), run[|run| - 1], choices(|init|))
  }

  lemma TurnFollows(r: Resolver, w: State, bound: nat, s: Race.State, t: Race.Turn, choice: Choice)
    requires Follows(r, w, s)
    ensures Follows(r, Run(r, w, StepsOf(bound, s, t, choice)), Race.Step(bound, s, t))
  {
    var steps := StepsOf(bound, s, t, choice);
    RunKeeps(r, w, steps);
    if steps != [] {
      if t.Append? {
        RunOne(r, w, steps[0]);
        AppendRecords(r, w, steps[0]);
      } else {
        Rotated(r, w, choice.noise);
      }
    }
  }

  /** Whatever the writers' turns and whatever is appended, the daemon's first and next index are the
      race's. */
  lemma {:induction false} RunFollows(r: Resolver, w: State, bound: nat, s: Race.State, run: seq<Race.Turn>,
                                     choices: nat -> Choice)
    requires Follows(r, w, s)
    ensures Follows(r, Run(r, w, RunOf(bound, s, run, choices)), Race.Run(bound, s, run))
  {
    if run != [] {
      var init := run[..|run| - 1];
      var before := RunOf(bound, s, init, choices);
      var steps := StepsOf(bound, Race.Run(bound, s, init), run[|run| - 1], choices(|init|));
      RunFollows(r, w, bound, s, init, choices);
      TurnFollows(r, Run(r, w, before), bound, Race.Run(bound, s, init), run[|run| - 1], choices(|init|));
      RunThen(r, w, before, steps);
    }
  }

  /** So the daemon's live segment, from below the bound, is past it by no more than the writers that
      have yet to take their second turn. */
  lemma DaemonBounded(r: Resolver, w: State, bound: nat, s: Race.State, run: seq<Race.Turn>, choices: nat -> Choice)
    requires Follows(r, w, s) && bound >= 2 && s.Live() < bound
    ensures var w' := Run(r, w, RunOf(bound, s, run, choices));
            && w'.proc.Serving?
            && (w'.proc.n - w'.proc.base >= bound ==>
                  |Race.Run(bound, s, run).pending| >= w'.proc.n - w'.proc.base - bound + 1)
  {
    RunFollows(r, w, bound, s, run, choices);
    Race.LiveBounded(bound, s, run);
  }

  // ----- The daemon's own methods -----

  /** What the daemon's clock says of its segment. */
  predicate Aged(a: ReturnPathAudit, now: int)
    reads a
  {
    a.maxAge > 0 && a.firstAt.Some? && now - a.firstAt.value >= a.maxAge
  }

  /** The daemon is due when the race is. */
  lemma DueAgrees(a: ReturnPathAudit, now: int)
    requires a.segmentEvents >= 2
    ensures a.Due(now) <==> Race.Due(a.segmentEvents, a.n - a.base, Aged(a, now))
  {
  }

  /** A writer's first turn is the daemon's append: it performs exactly the turn's steps. */
  method FirstTurn(a: ReturnPathAudit, ghost s: Race.State, writer: nat, choice: Choice)
    requires a.Valid() && Follows(a.r, a.Machine(), s) && writer !in s.pending
    modifies a
    ensures var t := Race.Append(writer);
            && a.Machine() == Run(a.r, old(a.Machine()), StepsOf(a.segmentEvents, s, t, choice))
            && a.Valid() && Follows(a.r, a.Machine(), Race.Step(a.segmentEvents, s, t))
  {
    ghost var before, t := a.Machine(), Race.Append(writer);
    TurnFollows(a.r, before, a.segmentEvents, s, t, choice);
    RunOne(a.r, before, StepsOf(a.segmentEvents, s, t, choice)[0]);
    a.AppendOne(choice.kind, choice.payload, choice.at, choice.noise);
  }

  /** Its second turn is the daemon's rotateIfDue, when nothing fails. */
  method SecondTurn(a: ReturnPathAudit, ghost s: Race.State, writer: nat, now: int, choice: Choice)
    requires a.Valid() && a.segmentEvents >= 2 && Follows(a.r, a.Machine(), s) && writer in s.pending
    modifies a
    ensures var t := Race.RotateIfDue(writer, old(Aged(a, now)));
            && a.Machine() == Run(a.r, old(a.Machine()), StepsOf(a.segmentEvents, s, t, choice))
            && a.Valid() && Follows(a.r, a.Machine(), Race.Step(a.segmentEvents, s, t))
  {
    ghost var before, t := a.Machine(), Race.RotateIfDue(writer, Aged(a, now));
    DueAgrees(a, now);
    TurnFollows(a.r, before, a.segmentEvents, s, t, choice);
    if a.n > a.base { NameIsFree(a.r, before); }
    ghost var did := a.RotateIfDue(now, NoFault, choice.noise);
  }
}
