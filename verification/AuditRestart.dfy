/** What a start makes of any disk, what each failure of a rotation leaves, and the age of a segment
    across a restart. */
module AuditRestart {
  import opened Options
  import opened AuditLog
  import opened AuditWriter
  import opened AuditDaemon

  // ----- What a start refuses -----

  /** The live file begins a log or says where it continues one, and its events link and verify. */
  predicate LiveServes(d: Disk, r: Resolver)
    requires d.live.Some?
  {
    var f := d.live.value;
    (f.start.Some? || d.archives == []) && StartValid(f) && Chained(Prev(f), f.events, r)
  }

  predicate Bears(seg: Segment, name: Name) { seg.archive.Some? && seg.archive.value.name == name }

  /** The k-th archive is the newest of that name. */
  predicate NewestOf(archives: seq<Segment>, name: Name, k: nat) {
    k < |archives| && Bears(archives[k], name) && forall j | k < j < |archives| :: !Bears(archives[j], name)
  }

  lemma {:induction false} FindIs(archives: seq<Segment>, name: Name, k: nat)
    requires NewestOf(archives, name, k)
    ensures Find(archives, name) == Some(archives[k])
  {
    var init := archives[..|archives| - 1];
    if k < |init| { FindIs(init, name, k); }
  }

  lemma {:induction false} FoundAt(archives: seq<Segment>, name: Name) returns (k: nat)
    requires Find(archives, name).Some?
    ensures NewestOf(archives, name, k)
  {
    k := |archives| - 1;
    if !Bears(archives[k], name) { k := FoundAt(archives[..k], name); }
  }

  /** The newest archive of the name the live file gives ends where the live file starts. */
  ghost predicate Predecessor(d: Disk)
    requires d.live.Some? && d.live.value.start.Some?
  {
    exists k: nat :: NewestOf(d.archives, d.live.value.start.value.prevSegment, k)
      && d.archives[k].archive.value.last + 1 == First(d.live.value)
  }

  /** On any disk, whoever wrote it: a start refuses a live file with events that do not verify or that
      stands beside archives without saying where it starts, an empty one whose predecessor is not
      here, and an empty place whose newest archive is not what its name says. Everything else it takes
      up, and no event is lost, taken or not. */
  lemma StartRefusesExactly(r: Resolver, d: Disk, image: Written)
    ensures var s' := Booted(d, image, r);
            && (s'.proc.Down? <==>
                  if d.live.Some? && d.live.value.events != [] then !LiveServes(d, r)
                  else if d.live.Some? && d.live.value.start.Some? then !Predecessor(d)
                  else d.archives != [] && !HoldsItsName(d.archives[|d.archives| - 1]))
            && OnRecord(s'.disk) == OnRecord(d)
            && (s'.proc.Serving? ==>
                  && s'.disk.live.Some? && LiveServes(s'.disk, r)
                  && s'.proc == Serving(First(s'.disk.live.value), EndIndex(s'.disk.live.value),
                                        EndTip(s'.disk.live.value)))
  {
    if d.live.Some? && d.live.value.start.Some? {
      var name := d.live.value.start.value.prevSegment;
      if Find(d.archives, name).Some? {
        var k := FoundAt(d.archives, name);
        FindIs(d.archives, name, k);
      }
      forall k: nat | NewestOf(d.archives, name, k) ensures Find(d.archives, name) == Some(d.archives[k]) {
        FindIs(d.archives, name, k);
      }
    }
  }

  // ----- What each failure of a rotation leaves -----

  /** A move that fails cleanly leaves everything as it was, and the daemon serves on. Any other failure
      leaves it refusing, any crash leaves it down; past the move the archive is there, and the closing
      is on the record only when its write took effect. */
  ghost predicate Left(s: State, fault: Fault, s': State) {
    && (fault == Fails(AtMove, true) ==> s' == s)
    && (s'.proc.Serving? <==> fault.NoFault? || fault == Fails(AtMove, true))
    && (s'.proc.Down? <==> fault.Cut?)
    && (OnRecord(s.disk) == OnRecord(s'.disk) <==> fault.Fails? || (fault.Cut? && !fault.at.AtClosing?))
    && |s'.disk.archives| == |s.disk.archives| + (if !fault.NoFault? && fault.at.AtMove? then 0 else 1)
  }

  lemma RotationLeaves(r: Resolver, s: State, fault: Fault, noise: Noise)
    requires Good(r, s) && s.proc.Serving? && s.proc.n > s.proc.base
    ensures Left(s, fault, Run(r, s, RotationSteps(fault, noise)))
  {
    NameIsFree(r, s);
    if !fault.NoFault? && (fault.at.AtMove? || fault.at.AtDescribe?) {
      EarlyLeaves(r, s, fault, noise);
    } else {
      var moved := Step(r, s, Move);
      MovedLeaves(r, s);
      RotationRuns(r, s, fault, noise);
      ContinueLeaves(r, moved, fault, noise);
    }
  }

  lemma EarlyLeaves(r: Resolver, s: State, fault: Fault, noise: Noise)
    requires s.proc.Serving? && Enabled(s, Move)
    requires !fault.NoFault? && (fault.at.AtMove? || fault.at.AtDescribe?)
    ensures Left(s, fault, Run(r, s, RotationSteps(fault, noise)))
  {
    if fault.at.AtMove? {
      RunOne(r, s, Refuse);
      RunOne(r, s, Crash);
    } else {
      MoveRecord(r, s);
      RotationRuns(r, s, fault, noise);
    }
  }

  lemma MovedLeaves(r: Resolver, s: State)
    requires Good(r, s) && Enabled(s, Move)
    ensures var s' := Step(r, s, Move);
            && Good(r, s') && s'.proc.Moved?
            && |s'.disk.archives| == |s.disk.archives| + 1 && OnRecord(s'.disk) == OnRecord(s.disk)
  {
    MoveRecord(r, s);
    MoveKeeps(r, s);
  }

  lemma ContinueLeaves(r: Resolver, s: State, fault: Fault, noise: Noise)
    requires Good(r, s) && s.proc.Moved?
    ensures var s' := Run(r, s, ContinueSteps(fault, noise));
            && s'.disk.archives == s.disk.archives
            && (Creates(fault) && Closes(fault) ==>
                  (s'.proc.Serving? <==> fault.NoFault?) && (OnRecord(s'.disk) == OnRecord(s.disk) <==> fault.Fails?))
            && (!Creates(fault) ==> OnRecord(s'.disk) == OnRecord(s.disk) && !s'.proc.Serving?)
            && (s'.proc.Down? <==> fault.Cut? && (!Creates(fault) || Closes(fault)))
  {
    var newest := s.disk.archives[|s.disk.archives| - 1];
    var s1 := Run(r, s, CreateSteps(fault, noise));
    assert WellNamed(newest);
    CreateRuns(r, s, fault, noise);
    ContinueRuns(r, s, fault, noise);
    if Creates(fault) {
      FindNewest(s.disk.archives);
      ClosingRuns(r, s1, newest, fault, noise);
    }
  }

  // ----- The age of a segment -----

  /** The daemon measures the age of a segment that holds an event from no earlier than that event, and
      of an empty one from nowhere. */
  predicate AgeRight(a: ReturnPathAudit)
    reads a
  {
    a.Rotates() && a.Machine().proc.Serving? ==>
      if a.Holds() then a.firstAt.Some? && a.live.value.events[0].content.at <= a.firstAt.value
      else a.firstAt.None?
  }

  /** Every append keeps that, when the clock does not go back: the age is set at the first event, is
      not touched by the events after it, and starts again with the record of a closing. */
  method AppendKeepsAge(a: ReturnPathAudit, kind: nat, payload: Payload, at: int, now: int, persists: bool,
                        fault: Fault, noise: Noise)
    requires a.Valid() && a.running && Good(a.r, a.Machine()) && AgeRight(a) && at <= now
    modifies a
    ensures a.Valid() && Good(a.r, a.Machine()) && AgeRight(a)
  {
    ghost var s, due := a.Machine(), a.DueWith(a.n + 1 - a.base, a.firstAt, now);
    var recorded;
    ghost var did;
    recorded, did := a.Append(kind, payload, at, now, persists, fault, noise);
    if recorded {
      FirstAfter(a.r, s, Append(kind, payload, at, noise.salt, noise.image), due, fault, noise);
    }
  }

  /** The first event of the live file after an append, with or without the rotation after it: the first
      there was, the one appended, or the record of the closing. */
  lemma FirstAfter(r: Resolver, s: State, a: Action, due: bool, fault: Fault, noise: Noise)
    requires Good(r, s) && s.proc.Serving? && a.Append?
    ensures var s' := Run(r, s, [a] + if due then RotationSteps(fault, noise) else []);
            s'.proc.Serving? ==>
              && s'.disk.live.Some? && s'.disk.live.value.events != []
              && s'.disk.live.value.events[0].content.at ==
                 if due && Closes(fault) then noise.at
                 else if s.disk.live.value.events != [] then s.disk.live.value.events[0].content.at
                 else a.at
  {
    var s1 := Step(r, s, a);
    AppendRecords(r, s, a);
    RunOne(r, s, a);
    RunThen(r, s, [a], if due then RotationSteps(fault, noise) else []);
    if due {
      NameIsFree(r, s1);
      RotationLeaves(r, s1, fault, noise);
      Rotated(r, s1, noise);
    }
  }

  /** A restart sets the age to exactly the first event of the segment, so it never makes a segment
      younger than it was; and the first append after it closes the segment if and only if the count is
      reached or that event is old enough. */
  method AgeSurvivesRestart(a: ReturnPathAudit, began: int, starting: Noise, kind: nat, payload: Payload,
                            at: int, now: int, noise: Noise)
    requires a.Valid() && !a.running && Good(a.r, a.Machine()) && a.Holds()
    modifies a
    ensures var f := old(a.live.value);
            var closes := (a.segmentEvents > 0 && |f.events| + 1 >= a.segmentEvents)
                          || (a.maxAge > 0 && now - f.events[0].content.at >= a.maxAge);
            && a.Valid() && Good(a.r, a.Machine()) && a.Machine().proc.Serving?
            && a.base == (if closes then EndIndex(f) + 1 else First(f))
            && a.n == EndIndex(f) + (if closes then 2 else 1)
  {
    ghost var d := a.Files();
    BootedIs(a.r, d, starting.image);
    RunOne(a.r, a.Machine(), Boot(starting.image));
    var ok;
    ghost var did;
    ok, did := a.Open(began, NoFault, starting);
    assert did == [Boot(starting.image)];
    var recorded;
    recorded, did := a.Append(kind, payload, at, now, true, NoFault, noise);
  }
}
