/** The daemon's audit log as the object it is: its fields, its files, and the methods that append,
    close a segment when it is due, and start again. Each method is a run of the writer's steps. */
module AuditDaemon {
  import opened Options
  import opened AuditLog
  import opened AuditLogTheorems
  import opened AuditWriter

  // ----- What can go wrong -----

  /** The writes of a rotation, in order. */
  datatype Point = AtMove | AtDescribe | AtMake | AtStamp | AtClosing

  /** A write fails, leaving what it touched in order or not, or the process is gone at it. */
  datatype Fault = NoFault | Fails(at: Point, cleanly: bool) | Cut(at: Point)

  /** What the environment chooses: when a closing is recorded, what a file is when it is created, the
      bytes it then comes to, a signature's randomness. */
  datatype Noise = Noise(at: int, made: Image, image: Written, salt: nat)

  datatype Outcome = Done | Failed | Gone

  /** The steps that create the fresh live file. */
  function CreateSteps(fault: Fault, noise: Noise): seq<Action> {
    var make, stamp := MakeFile(noise.made), StampStart(noise.image);
    match fault
    case Fails(AtMake, cleanly) => if cleanly then [Refuse] else [make, Refuse]
    case Cut(AtMake) => [make, Crash]
    case Fails(AtStamp, cleanly) => if cleanly then [make, UnmakeFile] else [make, Refuse]
    case Cut(AtStamp) => [make, stamp, Crash]
    case _ => [make, stamp]
  }

  function ClosingSteps(fault: Fault, noise: Noise): seq<Action> {
    var closing := RecordClosing(noise.at, noise.salt, noise.image);
    match fault
    case Fails(AtClosing, _) => [Refuse]
    case Cut(AtClosing) => [closing, Crash]
    case _ => [closing]
  }

  predicate Creates(fault: Fault) { fault.NoFault? || (fault.at != AtMake && fault.at != AtStamp) }

  function ContinueSteps(fault: Fault, noise: Noise): seq<Action> {
    CreateSteps(fault, noise) + if Creates(fault) then ClosingSteps(fault, noise) else []
  }

  /** The rotation gets to the record of its closing. */
  predicate Closes(fault: Fault) { fault.NoFault? || fault.at.AtClosing? }

  /** The steps of a whole rotation, under every failure. */
  function RotationSteps(fault: Fault, noise: Noise): seq<Action> {
    match fault
    case Fails(AtMove, cleanly) => if cleanly then [] else [Refuse]
    case Cut(AtMove) => [Crash]
    case Fails(AtDescribe, _) => [Move, Refuse]
    case Cut(AtDescribe) => [Move, Crash]
    case _ => [Move] + ContinueSteps(fault, noise)
  }

  // ----- The daemon -----

  class ReturnPathAudit {
    const r: Resolver
    const segmentEvents: nat   // close a segment at so many events; 0 for never
    const maxAge: nat          // close a segment this long after its first event; 0 for never

    var live: Option<File>
    var archives: seq<Segment>

    var running: bool
    var storeOpen: bool        // the live segment's store can be written to
    var unrecorded: bool       // a closing is off the record; the chain refuses to go on
    var base: int
    var n: int
    var tip: Hash
    var firstAt: Option<int>   // when the live segment's first event occurred

    function Files(): Disk
      reads this
    {
      Disk(live, archives)
    }

    function Machine(): State
      reads this
    {
      State(Files(),
            if !running then Down
            else if !storeOpen || unrecorded then Refusing
            else Serving(base, n, tip))
    }

    /** A store that can be written to is the file at the live path; the configuration closes a
        segment by count at two events or more. */
    predicate Valid()
      reads this
    {
      segmentEvents != 1 && (Machine().proc.Serving? ==> live.Some?)
    }

    predicate Rotates() { segmentEvents > 0 || maxAge > 0 }

    /** Due by count, or by the age of a segment that holds more than its opening record. */
    predicate DueWith(held: int, firstAt: Option<int>, now: int) {
      && held > 0
      && ((segmentEvents > 0 && held >= segmentEvents)
          || (maxAge > 0 && held >= 2 && firstAt.Some? && now - firstAt.value >= maxAge))
    }

    predicate Due(now: int)
      reads this
    {
      DueWith(n - base, firstAt, now)
    }

    /** What the age is measured from, once the trigger has been looked at. */
    function AgeFrom(held: int, firstAt: Option<int>, now: int): Option<int> {
      if Rotates() && held > 0 && firstAt.None? then Some(now) else firstAt
    }

    constructor (r: Resolver, segmentEvents: nat, maxAge: nat)
      requires segmentEvents != 1
      ensures Valid() && Machine() == EMPTY
      ensures this.r == r && this.segmentEvents == segmentEvents && this.maxAge == maxAge
    {
      this.r, this.segmentEvents, this.maxAge := r, segmentEvents, maxAge;
      live, archives, running, firstAt := None, [], false, None;
    }

    // ----- Appending -----

    /** segmentDue. */
    method SegmentDue(now: int) returns (due: bool)
      requires maxAge > 0 || segmentEvents > 0
      modifies this`firstAt
      ensures due <==> old(Due(now))
      ensures firstAt == AgeFrom(n - base, old(firstAt), now)
    {
      if n - base <= 0 { return false; }
      if firstAt.None? { firstAt := Some(now); }
      if segmentEvents > 0 && n - base >= segmentEvents { return true; }
      due := maxAge > 0 && n - base >= 2 && now - firstAt.value >= maxAge;
    }

    /** The chain's append: sealed against the tip, then written; only then does the chain advance. */
    method AppendLocked(kind: Kind, payload: Payload, at: int, noise: Noise)
      requires live.Some?
      modifies this`live, this`n, this`tip
      ensures var e := Seal(r, old(tip), kind, payload, at, noise.salt);
              Files() == Write(old(Files()), e, noise.image) && n == old(n) + 1 && tip == e.hash
    {
      var e := Seal(r, tip, kind, payload, at, noise.salt);
      live := Some(live.value.(events := live.value.events + [e], image := noise.image));
      n, tip := n + 1, e.hash;
    }

    /** Create: a fresh file at the live path that says where it starts. */
    method Create(fault: Fault, noise: Noise, ghost s: State) returns (made: Outcome)
      requires s.disk == Files() && s.proc == Moved(n, tip) && live.None? && archives != []
      modifies this`live
      ensures var s' := Run(r, s, CreateSteps(fault, noise));
              && s'.disk == Files()
              && s'.proc == (match made case Done => Opened(n, tip) case Failed => Refusing case Gone => Down)
      ensures made.Done? <==> Creates(fault)
      ensures made.Gone? <==> fault == Cut(AtMake) || fault == Cut(AtStamp)
      ensures made.Done? ==> live == Some(File(Some(Start(n, tip, NewestName(Files()))), [], noise.image))
    {
      CreateRuns(r, s, fault, noise);
      made := Failed;
      if fault == Fails(AtMake, true) { return; }
      live := Some(File(None, [], noise.made));
      if fault == Fails(AtMake, false) || fault == Fails(AtStamp, false) { return; }
      if fault == Cut(AtMake) { return Gone; }
      if fault == Fails(AtStamp, true) {
        live := None;
        return;
      }
      var newest := archives[|archives| - 1];
      var name := if newest.archive.Some? then newest.archive.value.name else OtherName(0);
      live := Some(File(Some(Start(n, tip, name)), [], noise.image));
      if fault == Cut(AtStamp) { return Gone; }
      made := Done;
    }

    /** The closing of the archive prev is recorded as the live file's first event. */
    method Close(prev: Segment, fault: Fault, noise: Noise, ghost s: State)
      requires s.disk == Files() && s.proc == Opened(n, tip) && running && storeOpen && !unrecorded
      requires live.Some? && live.value.start.Some? && prev.archive.Some?
      requires Find(archives, live.value.start.value.prevSegment) == Some(prev)
      modifies this`live, this`running, this`unrecorded, this`base, this`n, this`tip
      ensures Machine() == Run(r, s, ClosingSteps(fault, noise))
      ensures Machine().proc.Serving? ==> live.Some? && n == base + 1
      ensures base == old(n)
    {
      ClosingRuns(r, s, prev, fault, noise);
      base := n;
      if fault.Fails? && fault.at.AtClosing? {
        unrecorded := true;
        return;
      }
      var described := Describe(prev, tip);
      AppendLocked(SegmentClosed, Closing(described), noise.at, noise);
      if fault == Cut(AtClosing) { running := false; }
    }

    /** rotateIfDue: the live file is moved into the archive, a fresh one continues the chain, and
        the closing is its first event. */
    method RotateIfDue(now: int, fault: Fault, noise: Noise) returns (ghost did: seq<Action>)
      requires Valid() && running
      modifies this
      ensures Valid() && Machine() == Run(r, old(Machine()), did)
      ensures did == if old(Due(now) && Enabled(Machine(), Move)) then RotationSteps(fault, noise) else []
      ensures firstAt == if old(Due(now) && Enabled(Machine(), Move)) && Closes(fault) then Some(noise.at)
                         else if old(unrecorded) then old(firstAt)
                         else AgeFrom(old(n - base), old(firstAt), now)
    {
      did := [];
      if !Rotates() || unrecorded { return; }
      var due := SegmentDue(now);
      if !due || !storeOpen { return; }
      did := Rotate(fault, noise);
    }

    /** Rotate: refused when there is nothing to close or the archive's name is taken, which leaves
        the live file as it is. */
    method Rotate(fault: Fault, noise: Noise) returns (ghost did: seq<Action>)
      requires Valid() && Machine().proc.Serving?
      modifies this
      ensures Valid() && Machine() == Run(r, old(Machine()), did)
      ensures did == if old(Enabled(Machine(), Move)) then RotationSteps(fault, noise) else []
      ensures firstAt == if old(Enabled(Machine(), Move)) && Closes(fault) then Some(noise.at) else old(firstAt)
    {
      ghost var s := Machine();
      did := [];
      if n <= base || exists a | a in archives :: a.archive.Some? && a.archive.value.name == SegmentName(base, n - 1) {
        return;
      }
      did := RotationSteps(fault, noise);
      if fault.Fails? && fault.at.AtMove? {
        storeOpen := fault.cleanly;
        RunOne(r, s, Refuse);
      } else if fault == Cut(AtMove) {
        running := false;
        RunOne(r, s, Crash);
      } else {
        MoveOn(fault, noise);
      }
    }

    /** ... once the move itself is not what fails. */
    method MoveOn(fault: Fault, noise: Noise)
      requires Valid() && Machine().proc.Serving? && Enabled(Machine(), Move)
      requires fault.NoFault? || !fault.at.AtMove?
      modifies this
      ensures Valid() && Machine() == Run(r, old(Machine()), RotationSteps(fault, noise))
      ensures firstAt == if Closes(fault) then Some(noise.at) else old(firstAt)
    {
      ghost var s := Machine();
      MoveLive();
      RotationRuns(r, s, fault, noise);
      if !fault.NoFault? && fault.at.AtDescribe? {
        if fault.Fails? { storeOpen := false; } else { running := false; }
      } else {
        Continue(true, fault, noise, Step(r, s, Move));
      }
    }

    /** countingChain.Append: the event is on the record, then the segment is closed if it is due. */
    method Append(kind: nat, payload: Payload, at: int, now: int, persists: bool, fault: Fault, noise: Noise)
      returns (recorded: bool, ghost did: seq<Action>)
      requires Valid() && running && Good(r, Machine())
      modifies this
      ensures Valid() && Machine() == Run(r, old(Machine()), did) && Good(r, Machine())
      ensures recorded <==> old(Machine().proc.Serving?) && persists
      ensures !recorded ==> did == []
      ensures recorded ==>
                did == [AuditWriter.Append(kind, payload, at, noise.salt, noise.image)]
                       + if old(DueWith(n + 1 - base, firstAt, now)) then RotationSteps(fault, noise) else []
      ensures recorded ==>
                old(OnRecord(Files())) + [Seal(r, old(tip), OtherKind(kind), payload, at, noise.salt)]
                <= OnRecord(Files())
      ensures recorded && fault.NoFault? ==>
                && Machine().proc.Serving?
                && (var due := old(DueWith(n + 1 - base, firstAt, now));
                    && n == old(n) + (if due then 2 else 1)
                    && n - base == (if due then 1 else old(n - base) + 1))
      ensures !recorded ==> firstAt == old(firstAt)
      ensures recorded ==>
                firstAt == if old(DueWith(n + 1 - base, firstAt, now)) && Closes(fault) then Some(noise.at)
                           else AgeFrom(old(n + 1 - base), old(firstAt), now)
    {
      ghost var s, a := Machine(), AuditWriter.Append(kind, payload, at, noise.salt, noise.image);
      recorded, did := AppendAndRotate(kind, payload, at, now, persists, fault, noise);
      if recorded { AppendThen(r, s, a, did[1..], noise); }
    }

    /** ... from any state. */
    method AppendAndRotate(
        kind: nat, payload: Payload, at: int, now: int, persists: bool, fault: Fault, noise: Noise)
      returns (recorded: bool, ghost did: seq<Action>)
      requires Valid() && running
      modifies this
      ensures Valid() && Machine() == Run(r, old(Machine()), did)
      ensures recorded <==> old(Machine().proc.Serving?) && persists
      ensures !recorded ==> did == []
      ensures recorded ==>
                var a := AuditWriter.Append(kind, payload, at, noise.salt, noise.image);
                did == [a] + if old(DueWith(n + 1 - base, firstAt, now)) && Enabled(Step(r, old(Machine()), a), Move)
                       then RotationSteps(fault, noise) else []
      ensures !recorded ==> firstAt == old(firstAt)
      ensures recorded ==>
                var a := AuditWriter.Append(kind, payload, at, noise.salt, noise.image);
                firstAt == if old(DueWith(n + 1 - base, firstAt, now))
                              && Enabled(Step(r, old(Machine()), a), Move) && Closes(fault) then Some(noise.at)
                           else AgeFrom(old(n + 1 - base), old(firstAt), now)
    {
      ghost var s, a := Machine(), AuditWriter.Append(kind, payload, at, noise.salt, noise.image);
      recorded, did := false, [];
      if unrecorded || !storeOpen || !persists { return; }
      AppendOne(kind, payload, at, noise);
      recorded := true;
      ghost var rest := RotateIfDue(now, fault, noise);
      did := [a] + rest;
      RunOne(r, s, a);
      RunThen(r, s, [a], rest);
    }

    /** One event on the record. */
    method AppendOne(kind: nat, payload: Payload, at: int, noise: Noise)
      requires Valid() && Machine().proc.Serving?
      modifies this`live, this`n, this`tip
      ensures Valid()
      ensures Machine() == Step(r, old(Machine()), AuditWriter.Append(kind, payload, at, noise.salt, noise.image))
    {
      AppendLocked(OtherKind(kind), payload, at, noise);
    }

    // ----- Starting -----

    /** OpenPersistentChain: every link and signature of the live file, from where it starts. */
    method WalkVerify(f: File) returns (ok: bool)
      ensures ok <==> Chained(Prev(f), f.events, r)
    {
      var expectedPrev, i := Prev(f), 0;
      while i < |f.events|
        invariant 0 <= i <= |f.events|
        invariant expectedPrev == TipAfter(Prev(f), f.events[..i])
        invariant Chained(Prev(f), f.events[..i], r)
      {
        var evt := f.events[i];
        if evt.prevHash != expectedPrev || !Verifies(evt, r) { return false; }
        ChainedExtends(Prev(f), f.events, i, r);
        expectedPrev, i := evt.hash, i + 1;
      }
      assert f.events[..i] == f.events;
      ok := true;
    }

    /** openReturnPathAudit: the live file is opened or made, what it holds verified, and a closing
        off the record recorded before anything else. A start that fails leaves the process down. */
    method Open(now: int, fault: Fault, noise: Noise) returns (ok: bool, ghost did: seq<Action>)
      requires Valid() && !running
      modifies this
      ensures Valid() && Machine() == Run(r, old(Machine()), did)
      ensures ok <==> running
      ensures ok ==> Machine().proc.Serving?
      ensures var booted := Booted(old(Files()), noise.image, r);
              did == if old(FirstStart()) && CutsFirst(fault) then [TearFirst(noise.made)]
                     else if old(FirstStart()) && fault == Fails(AtMake, true) then []
                     else [Boot(noise.image)] + FinishSteps(booted, fault, noise) + if ok then [] else [Crash]
      ensures old(Good(r, Machine())) ==> Good(r, Machine()) && (fault.NoFault? ==> ok)
      ensures ok && old(Holds()) ==> firstAt == Some(old(live.value.events[0].content.at))
      ensures ok && !old(Holds()) ==>
                firstAt == if Finishing(Booted(old(Files()), noise.image, r)) && Rotates() then Some(now) else None
    {
      if live.None? && archives == [] && !fault.NoFault? && fault.at.AtMake? {
        TearKeeps(r, Machine(), noise.made);
        ok, did := false, [];
        if CutsFirst(fault) {
          live, did := Some(File(None, [], noise.made)), [TearFirst(noise.made)];
        }
        return;
      }
      ghost var s := Machine();
      ghost var s1 := Booted(Files(), noise.image, r);
      ghost var finish := FinishSteps(s1, fault, noise);
      ok := Begin(now, fault, noise, s1);
      did := [Boot(noise.image)] + finish + if ok then [] else [Crash];
      StartRuns(r, s, noise.image, finish);
      assert ok ==> did == [Boot(noise.image)] + finish;
      if Good(r, s) { StartKeeps(r, s, fault, noise); }
    }

    /** ... once the log file is there to open. */
    method Begin(now: int, fault: Fault, noise: Noise, ghost s: State) returns (ok: bool)
      requires Valid() && !running && s == Booted(Files(), noise.image, r)
      modifies this
      ensures var s' := Run(r, s, FinishSteps(s, fault, noise));
              && (ok <==> s'.proc.Serving?)
              && Machine() == if ok then s' else State(s'.disk, Down)
      ensures Valid() && (ok <==> running)
      ensures ok ==>
                firstAt == if old(Holds()) then Some(old(live.value.events[0].content.at))
                           else if Finishing(s) && Rotates() then Some(now) else None
    {
      var finished := OpenLive(fault, noise, s);
      ok := running && storeOpen && !unrecorded;
      running := ok;
      if ok && finished {
        // The closing is appended like any event, and the trigger looked at: one event is never due.
        ghost var nothing := RotateIfDue(now, NoFault, noise);
      }
    }

    /** Neither a live file nor an archive: the log has not begun. */
    predicate FirstStart()
      reads this
    {
      live.None? && archives == []
    }

    /** The live file holds an event. */
    predicate Holds()
      reads this
    {
      live.Some? && live.value.events != []
    }

    /** OpenLive, and OpenPersistentChain over what it found; finished when it had a closing to record. */
    method OpenLive(fault: Fault, noise: Noise, ghost s: State) returns (finished: bool)
      requires !running && s == Booted(Files(), noise.image, r)
      modifies this
      ensures Machine() == Run(r, s, FinishSteps(s, fault, noise))
      ensures Machine().proc.Serving? ==> live.Some? && (finished <==> Finishing(s))
      ensures Machine().proc.Serving? && finished ==> n == base + 1
      ensures Machine().proc.Serving? ==>
                firstAt == if old(Holds()) then Some(old(live.value.events[0].content.at)) else None
    {
      running, storeOpen, unrecorded, firstAt, finished := true, true, false, None, false;
      match live {
        case None =>
          if archives == [] {
            live := Some(File(None, [], noise.image));
            base, n, tip := 0, 0, Genesis;
          } else {
            ContinueFrom(fault, noise, s);
            finished := true;
          }
        case Some(f) =>
          finished := OpenFile(f, fault, noise, s);
      }
    }

    /** ... on a live file that is there. */
    method OpenFile(f: File, fault: Fault, noise: Noise, ghost s: State) returns (finished: bool)
      requires running && storeOpen && !unrecorded && firstAt.None?
      requires live == Some(f) && s == Booted(Files(), noise.image, r)
      modifies this
      ensures var s' := Run(r, s, FinishSteps(s, fault, noise));
              Machine() == s'
      ensures Machine().proc.Serving? ==> live.Some? && (finished <==> Finishing(s))
      ensures Machine().proc.Serving? && finished ==> n == base + 1
      ensures Machine().proc.Serving? ==> firstAt == if f.events != [] then Some(f.events[0].content.at) else None
    {
      live, finished := Some(f.(image := noise.image)), false;
      if f.start.Some? && f.events == [] {
        CloseLeft(f.start.value, fault, noise, s);
        finished := true;
      } else if f.start.None? && archives != [] && f.events == [] {
        live := None;
        ContinueFrom(fault, noise, s);
        finished := true;
      } else if f.start.None? && archives != [] {
        running := false;
      } else {
        ServeChain(f);
      }
    }

    /** ... that holds nothing: the closing of the archive before it was left off the record. */
    method CloseLeft(start: Start, fault: Fault, noise: Noise, ghost s: State)
      requires running && storeOpen && !unrecorded && live == Some(File(Some(start), [], noise.image))
      requires var prev := Find(archives, start.prevSegment);
               s == State(Files(), if prev.None? || prev.value.archive.value.last + 1 != start.first then Down
                                   else Opened(start.first, start.prevTip))
      modifies this`live, this`running, this`unrecorded, this`base, this`n, this`tip
      ensures Machine() == Run(r, s, FinishSteps(s, fault, noise))
      ensures Machine().proc.Serving? ==> live.Some? && s.proc.Opened? && n == base + 1
    {
      var prev := Find(archives, start.prevSegment);
      if prev.None? || prev.value.archive.value.last + 1 != start.first {
        running := false;
      } else {
        n, tip := start.first, start.prevTip;
        Close(prev.value, fault, noise, s);
      }
    }

    /** ... that holds a chain to serve. */
    method ServeChain(f: File)
      requires running
      modifies this`running, this`base, this`n, this`tip, this`firstAt
      ensures running <==> StartValid(f) && Chained(Prev(f), f.events, r)
      ensures running ==>
                && (base, n, tip) == (First(f), EndIndex(f), EndTip(f))
                && firstAt == if f.events != [] then Some(f.events[0].content.at) else old(firstAt)
    {
      var verifies := WalkVerify(f);
      if !StartValid(f) || !verifies {
        running := false;
      } else {
        base, n, tip := First(f), EndIndex(f), EndTip(f);
        if f.events != [] { firstAt := Some(f.events[0].content.at); }
      }
    }

    /** continueFrom: the archive must hold what its name says. */
    method ContinueFrom(fault: Fault, noise: Noise, ghost s: State)
      requires running && storeOpen && !unrecorded && live.None? && archives != []
      requires s == AuditWriter.Continue(Files())
      modifies this
      ensures Machine() == Run(r, s, if s.proc.Moved? then ContinueSteps(fault, noise) else [])
      ensures Machine().proc.Serving? ==> live.Some? && n == base + 1
      ensures firstAt == old(firstAt)
    {
      var a := archives[|archives| - 1];
      var f := FileOf(a);
      if a.archive.None? || f.events == [] || First(f) != a.archive.value.first
         || EndIndex(f) - 1 != a.archive.value.last {
        running := false;
        return;
      }
      n, tip := EndIndex(f), EndTip(f);
      Continue(false, fault, noise, s);
    }

    /** The live file is renamed into the archive. */
    method MoveLive()
      requires Machine().proc.Serving? && live.Some? && Enabled(Machine(), Move)
      modifies this`live, this`archives
      ensures live.None? && archives != [] && archives[|archives| - 1].archive.Some?
      ensures State(Files(), Moved(n, tip)) == Step(r, old(Machine()), Move)
    {
      var a := Segment(Some(Archive(SegmentName(base, n - 1), base, n - 1)), Readable(live.value));
      live, archives := None, archives + [a];
    }

    /** The live path is empty and the newest archive is a: a fresh file continues it, and its
        closing is recorded. A rotation sets the age back to the closing it is about to record. */
    method Continue(rotating: bool, fault: Fault, noise: Noise, ghost s: State)
      requires s.disk == Files() && s.proc == Moved(n, tip) && running && storeOpen && !unrecorded
      requires live.None? && archives != [] && archives[|archives| - 1].archive.Some?
      modifies this
      ensures Machine() == Run(r, s, ContinueSteps(fault, noise))
      ensures Machine().proc.Serving? ==> live.Some? && n == base + 1
      ensures firstAt == if rotating && Creates(fault) then Some(noise.at) else old(firstAt)
    {
      ghost var s' := Run(r, s, CreateSteps(fault, noise));
      var made := Create(fault, noise, s);
      ContinueRuns(r, s, fault, noise);
      match made
      case Failed =>
        storeOpen := false;
      case Gone =>
        running := false;
      case Done =>
        if rotating { firstAt := Some(noise.at); }
        CloseNewest(fault, noise, s');
    }

    /** The fresh file continues the newest archive, whose closing it records. */
    method CloseNewest(fault: Fault, noise: Noise, ghost s: State)
      requires s.disk == Files() && s.proc == Opened(n, tip) && running && storeOpen && !unrecorded
      requires archives != [] && archives[|archives| - 1].archive.Some?
      requires live == Some(File(Some(Start(n, tip, NewestName(Files()))), [], noise.image))
      modifies this`live, this`running, this`unrecorded, this`base, this`n, this`tip
      ensures Machine() == Run(r, s, ClosingSteps(fault, noise))
      ensures Machine().proc.Serving? ==> live.Some? && n == base + 1
    {
      FindNewest(archives);
      Close(archives[|archives| - 1], fault, noise, s);
    }
  }

  lemma ContinueRuns(r: Resolver, s: State, fault: Fault, noise: Noise)
    ensures var made := Run(r, s, CreateSteps(fault, noise));
            Run(r, s, ContinueSteps(fault, noise))
            == if Creates(fault) then Run(r, made, ClosingSteps(fault, noise)) else made
  {
    RunThen(r, s, CreateSteps(fault, noise), ClosingSteps(fault, noise));
    assert !Creates(fault) ==> ContinueSteps(fault, noise) == CreateSteps(fault, noise);
  }

  /** What the creation of the fresh live file leaves, under every failure. */
  lemma CreateRuns(r: Resolver, s: State, fault: Fault, noise: Noise)
    requires s.proc.Moved? && s.disk.live.None? && s.disk.archives != []
    ensures var d, n, tip := s.disk, s.proc.n, s.proc.tip;
            var made := d.(live := Some(File(None, [], noise.made)));
            var stamped := d.(live := Some(File(Some(Start(n, tip, NewestName(d))), [], noise.image)));
            Run(r, s, CreateSteps(fault, noise)) ==
            match fault
            case Fails(AtMake, cleanly) => State(if cleanly then d else made, Refusing)
            case Cut(AtMake) => State(made, Down)
            case Fails(AtStamp, cleanly) => State(if cleanly then d else made, Refusing)
            case Cut(AtStamp) => State(stamped, Down)
            case _ => State(stamped, Opened(n, tip))
  {
    var make, stamp := MakeFile(noise.made), StampStart(noise.image);
    var s1 := State(s.disk.(live := Some(File(None, [], noise.made))), Making(s.proc.n, s.proc.tip));
    assert Step(r, s, make) == s1;
    match fault {
      case Fails(AtMake, cleanly) => if cleanly { RunOne(r, s, Refuse); } else { RunTwo(r, s, make, Refuse); }
      case Cut(AtMake) => RunTwo(r, s, make, Crash);
      case Fails(AtStamp, cleanly) =>
        if cleanly { RunTwo(r, s, make, UnmakeFile); } else { RunTwo(r, s, make, Refuse); }
      case Cut(AtStamp) =>
        StampRuns(r, s, noise);
        assert [make, stamp, Crash] == [make, stamp] + [Crash];
        RunThen(r, s, [make, stamp], [Crash]);
        RunOne(r, Run(r, s, [make, stamp]), Crash);
      case _ => StampRuns(r, s, noise);
    }
  }

  /** ... when neither of its writes fails. */
  lemma StampRuns(r: Resolver, s: State, noise: Noise)
    requires s.proc.Moved? && s.disk.live.None? && s.disk.archives != []
    ensures var (d, n, tip) := (s.disk, s.proc.n, s.proc.tip);
            Run(r, s, [MakeFile(noise.made), StampStart(noise.image)]) ==
            State(d.(live := Some(File(Some(Start(n, tip, NewestName(d))), [], noise.image))), Opened(n, tip))
  {
    RunTwo(r, s, MakeFile(noise.made), StampStart(noise.image));
  }

  /** What the record of a closing leaves, under every failure. */
  lemma ClosingRuns(r: Resolver, s: State, prev: Segment, fault: Fault, noise: Noise)
    requires s.proc.Opened? && s.disk.live.Some? && s.disk.live.value.start.Some? && prev.archive.Some?
    requires Find(s.disk.archives, s.disk.live.value.start.value.prevSegment) == Some(prev)
    ensures var e := Seal(r, s.proc.tip, SegmentClosed, Closing(Describe(prev, s.proc.tip)), noise.at, noise.salt);
            var written := Write(s.disk, e, noise.image);
            Run(r, s, ClosingSteps(fault, noise)) ==
            match fault
            case Fails(AtClosing, _) => State(s.disk, Refusing)
            case Cut(AtClosing) => State(written, Down)
            case _ => State(written, Serving(s.proc.n, s.proc.n + 1, e.hash))
  {
    var closing := RecordClosing(noise.at, noise.salt, noise.image);
    RunOne(r, s, Refuse);
    RunOne(r, s, closing);
    RunTwo(r, s, closing, Crash);
  }

  /** A rotation whose move is not what fails, from the move on. */
  lemma RotationRuns(r: Resolver, s: State, fault: Fault, noise: Noise)
    requires fault.NoFault? || !fault.at.AtMove?
    ensures var s1 := Step(r, s, Move);
            Run(r, s, RotationSteps(fault, noise)) ==
            match fault
            case Fails(AtDescribe, _) => Step(r, s1, Refuse)
            case Cut(AtDescribe) => Step(r, s1, Crash)
            case _ => Run(r, s1, ContinueSteps(fault, noise))
  {
    RunTwo(r, s, Move, Refuse);
    RunTwo(r, s, Move, Crash);
    RunOne(r, s, Move);
    RunThen(r, s, [Move], ContinueSteps(fault, noise));
  }

  /** A start that found a rotation cut. */
  predicate Finishing(booted: State) { booted.proc.Moved? || booted.proc.Opened? }

  /** What a start does after Boot: finish the rotation it found cut. */
  ghost function FinishSteps(booted: State, fault: Fault, noise: Noise): seq<Action> {
    match booted.proc
    case Moved(_, _) => ContinueSteps(fault, noise)
    case Opened(_, _) => ClosingSteps(fault, noise)
    case _ => []
  }

  lemma AppendThen(r: Resolver, s: State, a: Action, rest: seq<Action>, noise: Noise)
    requires Good(r, s) && a.Append? && s.proc.Serving?
    ensures var s1 := Step(r, s, a);
            var s2 := Run(r, s1, rest);
            && Run(r, s, [a] + rest) == s2 && Good(r, s2)
            && OnRecord(s.disk) + [Seal(r, s.proc.tip, OtherKind(a.kind), a.payload, a.at, a.salt)] <= OnRecord(s2.disk)
            && s1.proc == Serving(s.proc.base, s.proc.n + 1, s1.proc.tip)
            && (s.proc.n + 1 > s.proc.base ==> Enabled(s1, Move))
            && (rest == RotationSteps(NoFault, noise) && Enabled(s1, Move) ==>
                  s2.proc.Serving? && s2.proc.base == s.proc.n + 1 && s2.proc.n == s.proc.n + 2)
            && (rest == [] ==> s2 == s1)
  {
    var s1 := Step(r, s, a);
    AppendRecords(r, s, a);
    RunOne(r, s, a);
    RunThen(r, s, [a], rest);
    RunKeeps(r, s1, rest);
    RecordOnlyGrows(r, s1, rest);
    if s1.proc.n > s1.proc.base {
      NameIsFree(r, s1);
      Rotated(r, s1, noise);
    }
  }

  /** A first start that leaves the file it was creating. */
  predicate CutsFirst(fault: Fault) { fault == Cut(AtMake) || fault == Fails(AtMake, false) }

  lemma TearKeeps(r: Resolver, s: State, made: Image)
    requires s.proc.Down? && s.disk.live.None? && s.disk.archives == []
    ensures Run(r, s, [TearFirst(made)]) == State(s.disk.(live := Some(File(None, [], made))), Down)
    ensures Good(r, s) ==> Good(r, Run(r, s, [TearFirst(made)]))
  {
    RunOne(r, s, TearFirst(made));
    StepTear(r, s, made);
  }

  lemma StartRuns(r: Resolver, s: State, image: Written, finish: seq<Action>)
    requires s.proc.Down?
    ensures var s2 := Run(r, Booted(s.disk, image, r), finish);
            && Run(r, s, [Boot(image)] + finish) == s2
            && Run(r, s, [Boot(image)] + finish + [Crash]) == State(s2.disk, Down)
  {
    var begun := [Boot(image)] + finish;
    RunOne(r, s, Boot(image));
    RunThen(r, s, [Boot(image)], finish);
    RunThen(r, s, begun, [Crash]);
    RunOne(r, Run(r, s, begun), Crash);
  }

  /** A start from a disk the writer left keeps it good, and comes up when nothing fails. */
  lemma StartKeeps(r: Resolver, s: State, fault: Fault, noise: Noise)
    requires Good(r, s) && s.proc.Down?
    ensures var s1 := Booted(s.disk, noise.image, r);
            var s2 := Run(r, s1, FinishSteps(s1, fault, noise));
            Good(r, s2) && Good(r, State(s2.disk, Down)) && (fault.NoFault? ==> s2.proc.Serving?)
  {
    var s1 := Booted(s.disk, noise.image, r);
    BootKeeps(r, s, noise.image);
    RunKeeps(r, s1, FinishSteps(s1, fault, noise));
    BootedIs(r, s.disk, noise.image);
    if s1.proc.Moved? { Finishes(r, s1, noise); }
    if s1.proc.Opened? {
      OpenedRecords(r, s1, noise.image, noise.at, noise.salt);
      RunOne(r, s1, RecordClosing(noise.at, noise.salt, noise.image));
    }
  }

  /** Continuing the newest archive, with nothing in the way, ends in service on a segment that
      holds its opening record. */
  lemma Finishes(r: Resolver, s: State, noise: Noise)
    requires Good(r, s) && s.proc.Moved?
    ensures var s' := Run(r, s, ContinueSteps(NoFault, noise));
            && s'.proc.Serving? && s'.proc.base == s.proc.n && s'.proc.n == s.proc.n + 1
            && s'.disk.live.Some? && |s'.disk.live.value.events| == 1
            && s'.disk.live.value.events[0].content.at == noise.at
  {
    var make, stamp := MakeFile(noise.made), StampStart(noise.image);
    var closing := RecordClosing(noise.at, noise.salt, noise.image);
    var s2 := Step(r, s, make);
    var s3 := Step(r, s2, stamp);
    MovedOpens(r, s, noise.image);
    StepKeeps(r, s, make);
    StepKeeps(r, s2, stamp);
    OpenedRecords(r, s3, noise.image, noise.at, noise.salt);
    assert ContinueSteps(NoFault, noise) == [make] + ([stamp] + [closing]);
    RunThen(r, s, [make], [stamp] + [closing]);
    RunThen(r, s2, [stamp], [closing]);
    RunOne(r, s, make);
    RunOne(r, s2, stamp);
    RunOne(r, s3, closing);
  }

  lemma AppendRecords(r: Resolver, s: State, a: Action)
    requires Good(r, s) && s.proc.Serving? && a.Append?
    ensures Good(r, Step(r, s, a)) && Enabled(s, a)
    ensures OnRecord(Step(r, s, a).disk)
            == OnRecord(s.disk) + [Seal(r, s.proc.tip, OtherKind(a.kind), a.payload, a.at, a.salt)]
  {
    StepKeeps(r, s, a);
    assert Enabled(s, a);
  }

  /** A rotation nothing interrupts ends in service on a segment that holds its opening record. */
  lemma Rotated(r: Resolver, s: State, noise: Noise)
    requires Good(r, s) && s.proc.Serving? && s.proc.n > s.proc.base
    ensures var s' := Run(r, s, RotationSteps(NoFault, noise));
            && s'.proc.Serving? && s'.proc.base == s.proc.n && s'.proc.n == s.proc.n + 1
            && s'.disk.live.Some? && |s'.disk.live.value.events| == 1
            && s'.disk.live.value.events[0].content.at == noise.at
  {
    NameIsFree(r, s);
    MoveKeeps(r, s);
    RunOne(r, s, Move);
    RunThen(r, s, [Move], ContinueSteps(NoFault, noise));
    Finishes(r, Step(r, s, Move), noise);
  }

  /** The archive a rotation would write is not there yet. */
  lemma NameIsFree(r: Resolver, s: State)
    requires Good(r, s) && s.proc.Serving? && s.proc.n > s.proc.base
    ensures Enabled(s, Move)
  {
    var archives := s.disk.archives;
    var all := archives + [LiveSeg(s.disk.live.value)];
    SegmentedIsFlat(archives, r);
    if archives != [] {
      NewestEnds(r, archives);
      assert SegmentFits(all, |archives|, r) && all[|archives| - 1] == archives[|archives| - 1];
    }
    forall a | a in archives
      ensures a.archive.Some? ==> a.archive.value.name != SegmentName(s.proc.base, s.proc.n - 1) {
      var k :| 0 <= k < |archives| && archives[k] == a;
      StartsBelow(r, archives, k);
    }
  }

  lemma StartsBelow(r: Resolver, archives: seq<Segment>, k: nat)
    requires ArchivesGood(r, archives) && k < |archives|
    ensures WellNamed(archives[k]) && archives[k].archive.value.first < |History(archives)|
  {
    SegmentedIsFlat(archives, r);
    assert WellNamed(archives[k]);
    CutAt(archives, k);
    assert SegmentFits(archives, k, r);
  }
}
