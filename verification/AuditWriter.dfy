/** The writer of the segmented log as a step system: appends, rotations, failures, crashes between
    any two writes to the disk, and starts that finish what a crash interrupted. */
module AuditWriter {
  import opened Options
  import opened AuditLog
  import opened AuditLogTheorems

  // ----- The disk and the daemon -----

  datatype Disk = Disk(live: Option<File>, archives: seq<Segment>)

  /** Where the daemon stands. A rotation passes through Moved, Making and Opened; a start enters it
      where a crash left the disk. */
  datatype Proc =
    | Down
    | Serving(base: int, n: int, tip: Hash)
    | Moved(n: int, tip: Hash)      // the live file is an archive now, its place is empty
    | Making(n: int, tip: Hash)     // the fresh live file exists and says nothing yet
    | Opened(n: int, tip: Hash)     // it says where it starts; the closing is not on the record
    | Refusing                      // every append is refused until the daemon is started again

  datatype State = State(disk: Disk, proc: Proc)

  /** The live file as a reader finds it: one of length zero does not open read-only. */
  function Shown(f: File): Stored { if f.image.size == 0 then Unreadable else Readable(f) }

  function LogOf(d: Disk): Log
    requires d.live.Some?
  {
    Log(d.archives, Shown(d.live.value))
  }

  function LiveSeg(f: File): Segment { Segment(None, Readable(f)) }

  /** Every event on the record. */
  function OnRecord(d: Disk): seq<Event> {
    History(d.archives) + (if d.live.Some? then d.live.value.events else [])
  }

  function NewestFile(d: Disk): File
    requires d.archives != []
  {
    FileOf(d.archives[|d.archives| - 1])
  }

  function NewestName(d: Disk): Name
    requires d.archives != []
  {
    var newest := d.archives[|d.archives| - 1];
    if newest.archive.Some? then newest.archive.value.name else OtherName(0)
  }

  /** A live file that exists beside archives and holds nothing, not even its start. */
  predicate Husk(d: Disk) {
    d.live.Some? && d.live.value.start.None? && d.live.value.events == [] && d.archives != []
  }

  /** A live file of length zero: its creation was cut. */
  predicate Blank(d: Disk) { d.live.Some? && d.live.value.image.size == 0 }

  // ----- Events -----

  /** seal: the event linked to the tip, hashed and signed. */
  function Seal(r: Resolver, tip: Hash, kind: Kind, payload: Payload, at: int, salt: nat): Event {
    var content := Content(kind, payload, r.keyId, at);
    Event(tip, content, Sha(tip, content), Signature(r.key, Sha(tip, content), salt))
  }

  /** The archive of that name, as the listing finds it. */
  function Find(archives: seq<Segment>, name: Name): (found: Option<Segment>)
    ensures found.Some? ==>
              found.value in archives && found.value.archive.Some? && found.value.archive.value.name == name
  {
    if archives == [] then None
    else
      var last := archives[|archives| - 1];
      if last.archive.Some? && last.archive.value.name == name then Some(last)
      else Find(archives[..|archives| - 1], name)
  }

  /** describeArchive. */
  function Describe(a: Segment, tip: Hash): ClosedSegment
    requires a.archive.Some?
  {
    ClosedSegment(true, a.archive.value.name, a.archive.value.first, a.archive.value.last, tip,
                  FileSha(FileOf(a)), FileOf(a).image.size)
  }

  /** What continueFrom wants of an archive before it continues it. */
  predicate HoldsItsName(a: Segment) {
    && a.archive.Some? && FileOf(a).events != []
    && First(FileOf(a)) == a.archive.value.first && EndIndex(FileOf(a)) - 1 == a.archive.value.last
  }

  // ----- Steps -----

  datatype Action =
    | Boot(image: Written)
    | TearFirst(made: Image)    // a first start cut while it creates the live file
    | MakeFile(made: Image)
    | UnmakeFile
    | StampStart(image: Written)
    | RecordClosing(at: int, salt: nat, image: Written)
    | Append(kind: nat, payload: Payload, at: int, salt: nat, image: Written)
    | Move
    | Refuse
    | Crash

  /** continueFrom, up to the first write. */
  function Continue(d: Disk): State
    requires d.archives != []
  {
    if HoldsItsName(d.archives[|d.archives| - 1]) then
      State(d.(live := None), Moved(EndIndex(NewestFile(d)), EndTip(NewestFile(d))))
    else State(d.(live := None), Down)
  }

  /** OpenLive, then OpenPersistentChain over what it found. */
  function Booted(d: Disk, image: Written, r: Resolver): State {
    match d.live
    case None =>
      if d.archives == [] then State(d.(live := Some(File(None, [], image))), Serving(0, 0, Genesis))
      else Continue(d)
    case Some(f) =>
      var touched := d.(live := Some(f.(image := image)));
      if f.start.Some? && f.events == [] then
        var prev := Find(d.archives, f.start.value.prevSegment);
        if prev.None? || prev.value.archive.value.last + 1 != First(f) then State(touched, Down)
        else State(touched, Opened(First(f), Prev(f)))
      else if f.start.None? && d.archives != [] then
        if f.events == [] then Continue(d) else State(touched, Down)
      else if StartValid(f) && Chained(Prev(f), f.events, r) then
        State(touched, Serving(First(f), EndIndex(f), EndTip(f)))
      else State(touched, Down)
  }

  predicate Enabled(s: State, a: Action) {
    match a
    case Boot(_) => s.proc.Down?
    case TearFirst(_) => s.proc.Down? && s.disk.live.None? && s.disk.archives == []
    case MakeFile(_) => s.proc.Moved? && s.disk.live.None?
    case UnmakeFile => s.proc.Making?
    case StampStart(_) => s.proc.Making? && s.disk.archives != []
    case RecordClosing(_, _, _) =>
      && s.proc.Opened? && s.disk.live.Some? && s.disk.live.value.start.Some?
      && Find(s.disk.archives, s.disk.live.value.start.value.prevSegment).Some?
    case Append(_, _, _, _, _) => s.proc.Serving? && s.disk.live.Some?
    case Move =>
      && s.proc.Serving? && s.disk.live.Some? && s.proc.n > s.proc.base
      && forall a | a in s.disk.archives ::
          a.archive.Some? ==> a.archive.value.name != SegmentName(s.proc.base, s.proc.n - 1)
    case Refuse => !s.proc.Down?
    case Crash => true
  }

  function Write(d: Disk, e: Event, image: Written): Disk
    requires d.live.Some?
  {
    d.(live := Some(d.live.value.(events := d.live.value.events + [e], image := image)))
  }

  function Apply(r: Resolver, s: State, a: Action): State
    requires Enabled(s, a)
  {
    var d := s.disk;
    match a
    case Boot(image) => Booted(d, image, r)
    case TearFirst(made) => State(d.(live := Some(File(None, [], made))), Down)
    case MakeFile(made) => State(d.(live := Some(File(None, [], made))), Making(s.proc.n, s.proc.tip))
    case UnmakeFile => State(d.(live := None), Refusing)
    case StampStart(image) =>
      var start := Start(s.proc.n, s.proc.tip, NewestName(d));
      State(d.(live := Some(File(Some(start), [], image))), Opened(s.proc.n, s.proc.tip))
    case RecordClosing(at, salt, image) =>
      var prev := Find(d.archives, d.live.value.start.value.prevSegment).value;
      var e := Seal(r, s.proc.tip, SegmentClosed, Closing(Describe(prev, s.proc.tip)), at, salt);
      State(Write(d, e, image), Serving(s.proc.n, s.proc.n + 1, e.hash))
    case Append(kind, payload, at, salt, image) =>
      var e := Seal(r, s.proc.tip, OtherKind(kind), payload, at, salt);
      State(Write(d, e, image), Serving(s.proc.base, s.proc.n + 1, e.hash))
    case Move =>
      var archive := Archive(SegmentName(s.proc.base, s.proc.n - 1), s.proc.base, s.proc.n - 1);
      State(Disk(None, d.archives + [Segment(Some(archive), Readable(d.live.value))]), Moved(s.proc.n, s.proc.tip))
    case Refuse => State(d, Refusing)
    case Crash => State(d, Down)
  }

  function Step(r: Resolver, s: State, a: Action): State {
    if Enabled(s, a) then Apply(r, s, a) else s
  }

  const EMPTY := State(Disk(None, []), Down)

  function Run(r: Resolver, s: State, run: seq<Action>): State {
    if run == [] then s else Step(r, Run(r, s, run[..|run| - 1]), run[|run| - 1])
  }

  lemma RunOne(r: Resolver, s: State, a: Action)
    ensures Run(r, s, [a]) == Step(r, s, a)
  {
    assert [a][..0] == [];
  }

  lemma {:induction false} RunThen(r: Resolver, s: State, one: seq<Action>, two: seq<Action>)
    ensures Run(r, s, one + two) == Run(r, Run(r, s, one), two)
  {
    if two == [] {
      assert one + two == one;
    } else {
      assert (one + two)[..|one + two| - 1] == one + two[..|two| - 1];
      RunThen(r, s, one, two[..|two| - 1]);
    }
  }

  lemma RunTwo(r: Resolver, s: State, a: Action, b: Action)
    ensures Run(r, s, [a, b]) == Step(r, Step(r, s, a), b)
  {
    assert [a, b] == [a] + [b];
    RunThen(r, s, [a], [b]);
    RunOne(r, s, a);
    RunOne(r, Step(r, s, a), b);
  }

  // ----- The invariant -----

  predicate WellNamed(seg: Segment) {
    && seg.archive.Some?
    && seg.archive.value.name == SegmentName(seg.archive.value.first, seg.archive.value.last)
    && FileOf(seg).events != []
  }

  ghost predicate ArchivesGood(r: Resolver, archives: seq<Segment>) {
    && AllFit(archives, r) && FromGenesis(archives)
    && forall k | 0 <= k < |archives| :: WellNamed(archives[k])
  }

  ghost predicate LiveGood(r: Resolver, d: Disk) {
    d.live.Some? && !Husk(d) ==>
      && Open(LiveSeg(d.live.value)) && SegmentFits(d.archives + [LiveSeg(d.live.value)], |d.archives|, r)
      && (d.live.value.start.None? <==> d.archives == [])
      && (d.archives != [] ==> d.live.value.start.value.prevSegment == NewestName(d))
  }

  ghost predicate ProcGood(s: State)
    requires forall k | 0 <= k < |s.disk.archives| :: WellNamed(s.disk.archives[k])
  {
    var d := s.disk;
    match s.proc
    case Serving(base, n, tip) =>
      && d.live.Some? && !Husk(d) && (d.archives != [] ==> d.live.value.events != [])
      && (base, n, tip) == (First(d.live.value), EndIndex(d.live.value), EndTip(d.live.value))
    case Moved(n, tip) =>
      d.live.None? && d.archives != [] && (n, tip) == (EndIndex(NewestFile(d)), EndTip(NewestFile(d)))
    case Making(n, tip) =>
      Husk(d) && (n, tip) == (EndIndex(NewestFile(d)), EndTip(NewestFile(d)))
    case Opened(n, tip) =>
      && d.live.Some? && d.archives != [] && d.live.value.events == []
      && d.live.value.start == Some(Start(n, tip, NewestName(d)))
    case _ => true
  }

  /** A file of length zero says nothing. */
  predicate BlankGood(d: Disk) { Blank(d) ==> d.live.value.start.None? && d.live.value.events == [] }

  ghost predicate Good(r: Resolver, s: State) {
    ArchivesGood(r, s.disk.archives) && LiveGood(r, s.disk) && ProcGood(s) && BlankGood(s.disk)
  }

  lemma SegsOf(d: Disk, r: Resolver)
    requires d.live.Some? && !Blank(d)
    ensures Segments(LogOf(d)) == d.archives + [LiveSeg(d.live.value)]
    ensures History(Segments(LogOf(d))) == OnRecord(d)
    ensures AllFit(Segments(LogOf(d)), r) <==>
            AllFit(d.archives, r) && Open(LiveSeg(d.live.value)) && SegmentFits(Segments(LogOf(d)), |d.archives|, r)
  {
    var segs := Segments(LogOf(d));
    assert segs[..|segs| - 1] == d.archives;
    FitByPrefix(segs, r);
  }

  lemma NewestEnds(r: Resolver, archives: seq<Segment>)
    requires ArchivesGood(r, archives) && archives != []
    ensures var f := FileOf(archives[|archives| - 1]);
            EndIndex(f) == |History(archives)| && EndTip(f) == TipAfter(Genesis, History(archives)) && EndIndex(f) > 0
    ensures HoldsItsName(archives[|archives| - 1])
  {
    SegmentedIsFlat(archives, r);
    var k := |archives| - 1;
    assert CutRight(archives, k);
    HistoryEnd(archives);
    assert SegmentFits(archives, k, r);
    assert WellNamed(archives[k]);
    assert StartsRight(archives, k);
  }

  lemma FindNewest(archives: seq<Segment>)
    requires archives != [] && archives[|archives| - 1].archive.Some?
    ensures Find(archives, archives[|archives| - 1].archive.value.name) == Some(archives[|archives| - 1])
  {
  }

  // ----- Every step keeps it -----

  /** With the archives as they were, the invariant needs checking on the live file and the process. */
  lemma MakeLive(r: Resolver, s: State, s': State)
    requires Good(r, s) && s'.disk.archives == s.disk.archives
    requires LiveGood(r, s'.disk) && ProcGood(s') && BlankGood(s'.disk)
    ensures Good(r, s')
  {
  }

  lemma ImageKeeps(r: Resolver, d: Disk, image: Written)
    requires LiveGood(r, d) && d.live.Some?
    ensures LiveGood(r, d.(live := Some(d.live.value.(image := image))))
  {
    var f, f' := d.live.value, d.live.value.(image := image);
    if !Husk(d) {
      var k := |d.archives|;
      var segs, segs' := d.archives + [LiveSeg(f)], d.archives + [LiveSeg(f')];
      assert SegmentFits(segs, k, r) && FileOf(segs'[k]).events == FileOf(segs[k]).events;
      if k > 0 { assert segs[k - 1] == segs'[k - 1]; }
    }
  }

  /** A live file that is no husk continues the newest archive, and chains. */
  lemma LiveContinues(r: Resolver, d: Disk)
    requires ArchivesGood(r, d.archives) && LiveGood(r, d) && d.live.Some? && !Husk(d)
    ensures var f := d.live.value;
            && StartValid(f) && Chained(Prev(f), f.events, r)
            && (f.start.None? <==> d.archives == [])
            && (d.archives != [] ==>
                  && First(f) == EndIndex(NewestFile(d)) && Prev(f) == EndTip(NewestFile(d))
                  && f.start.value.prevSegment == NewestName(d)
                  && Find(d.archives, NewestName(d)) == Some(d.archives[|d.archives| - 1])
                  && d.archives[|d.archives| - 1].archive.Some?
                  && d.archives[|d.archives| - 1].archive.value.last + 1 == First(f))
  {
    var segs, k := d.archives + [LiveSeg(d.live.value)], |d.archives|;
    assert SegmentFits(segs, k, r) && Open(segs[k]);
    if d.archives != [] {
      assert segs[k - 1] == d.archives[k - 1];
      NewestEnds(r, d.archives);
      FindNewest(d.archives);
    }
  }

  /** What a start makes of a good disk: a chain to serve, a rotation cut before its fresh file, or
      one cut before its closing record. */
  lemma BootedIs(r: Resolver, d: Disk, image: Written)
    requires ArchivesGood(r, d.archives) && LiveGood(r, d)
    ensures var s' := Booted(d, image, r);
            if d.live.None? && d.archives == [] then
              s' == State(d.(live := Some(File(None, [], image))), Serving(0, 0, Genesis))
            else if d.live.None? || Husk(d) then
              s' == State(d.(live := None), Moved(EndIndex(NewestFile(d)), EndTip(NewestFile(d))))
            else
              var f := d.live.value;
              s' == State(d.(live := Some(f.(image := image))),
                          if f.start.Some? && f.events == [] then Opened(First(f), Prev(f))
                          else Serving(First(f), EndIndex(f), EndTip(f)))
  {
    if d.archives != [] { NewestEnds(r, d.archives); }
    if d.live.Some? && !Husk(d) { LiveContinues(r, d); }
  }

  lemma BootKeeps(r: Resolver, s: State, image: Written)
    requires Good(r, s) && s.proc.Down?
    ensures Good(r, Booted(s.disk, image, r)) && !Booted(s.disk, image, r).proc.Down?
  {
    var d := s.disk;
    var s' := Booted(d, image, r);
    BootedIs(r, d, image);
    if d.live.None? && d.archives == [] {
      assert SegmentFits([LiveSeg(s'.disk.live.value)], 0, r);
      assert s'.disk.archives + [LiveSeg(s'.disk.live.value)] == [LiveSeg(s'.disk.live.value)];
    } else if d.live.Some? && !Husk(d) {
      LiveContinues(r, d);
      ImageKeeps(r, d, image);
    }
    MakeLive(r, s, s');
  }

  lemma StampKeeps(r: Resolver, s: State, image: Written)
    requires Good(r, s) && Enabled(s, StampStart(image))
    ensures Good(r, Apply(r, s, StampStart(image)))
  {
    var s' := Apply(r, s, StampStart(image));
    var d := s.disk;
    var segs := d.archives + [LiveSeg(s'.disk.live.value)];
    NewestEnds(r, d.archives);
    assert segs[|d.archives| - 1] == d.archives[|d.archives| - 1];
    assert SegmentFits(segs, |d.archives|, r);
  }

  lemma ClosingKeeps(r: Resolver, s: State, at: int, salt: nat, image: Written)
    requires Good(r, s) && Enabled(s, RecordClosing(at, salt, image))
    ensures Good(r, Apply(r, s, RecordClosing(at, salt, image)))
  {
    var s' := Apply(r, s, RecordClosing(at, salt, image));
    var d, f, f' := s.disk, s.disk.live.value, s'.disk.live.value;
    var k := |d.archives|;
    var segs, segs' := d.archives + [LiveSeg(f)], d.archives + [LiveSeg(f')];
    FindNewest(d.archives);
    assert SegmentFits(segs, k, r);
    assert segs[k - 1] == segs'[k - 1] == d.archives[k - 1];
    assert f'.events == [f'.events[0]];
    assert WellNamed(d.archives[k - 1]);
    assert Before(segs', k) == SeenAs(d.archives[k - 1]);
    assert f'.events[..0] == [];
    assert SegmentFits(segs', k, r);
  }

  lemma EventsExtend(r: Resolver, f: File, e: Event)
    requires Chained(Prev(f), f.events, r) && ClosingOnlyFirst(f.events)
    requires e.prevHash == EndTip(f) && Verifies(e, r) && !e.content.kind.SegmentClosed?
    ensures Chained(Prev(f), f.events + [e], r) && ClosingOnlyFirst(f.events + [e])
  {
    var n := |f.events|;
    var events := f.events + [e];
    assert events[..n] == f.events && events[..n + 1] == events;
    ChainedExtends(Prev(f), events, n, r);
  }

  lemma AppendFits(r: Resolver, archives: seq<Segment>, f: File, e: Event, image: Written)
    requires SegmentFits(archives + [LiveSeg(f)], |archives|, r)
    requires e.prevHash == EndTip(f) && Verifies(e, r) && !e.content.kind.SegmentClosed?
    requires f.events == [] ==> First(f) == 0
    ensures SegmentFits(archives + [LiveSeg(f.(events := f.events + [e], image := image))], |archives|, r)
  {
    var f' := f.(events := f.events + [e], image := image);
    var k := |archives|;
    if k > 0 { assert (archives + [LiveSeg(f)])[k - 1] == (archives + [LiveSeg(f')])[k - 1]; }
    EventsExtend(r, f, e);
    assert f.events != [] ==> f'.events[0] == f.events[0];
  }

  lemma AppendKeeps(r: Resolver, s: State, a: Action)
    requires Good(r, s) && a.Append? && Enabled(s, a)
    ensures Good(r, Apply(r, s, a))
  {
    var d := s.disk;
    var e := Seal(r, s.proc.tip, OtherKind(a.kind), a.payload, a.at, a.salt);
    LiveContinues(r, d);
    AppendLive(r, d, e, a.image);
    assert ProcGood(Apply(r, s, a));
    MakeLive(r, s, Apply(r, s, a));
  }

  lemma AppendLive(r: Resolver, d: Disk, e: Event, image: Written)
    requires LiveGood(r, d) && d.live.Some? && !Husk(d)
    requires d.live.value.start.None? || d.live.value.events != []
    requires e.prevHash == EndTip(d.live.value) && Verifies(e, r) && !e.content.kind.SegmentClosed?
    ensures LiveGood(r, Write(d, e, image))
  {
    AppendFits(r, d.archives, d.live.value, e, image);
  }

  lemma ArchiveAdded(r: Resolver, archives: seq<Segment>, seg: Segment)
    requires ArchivesGood(r, archives) && Open(seg) && WellNamed(seg)
    requires SegmentFits(archives + [seg], |archives|, r) && FromGenesis(archives + [seg])
    ensures ArchivesGood(r, archives + [seg])
  {
    var all := archives + [seg];
    assert all[..|archives|] == archives;
    FitByPrefix(all, r);
    forall i | 0 <= i < |all| ensures WellNamed(all[i]) {
      if i < |archives| { assert WellNamed(archives[i]); }
    }
  }

  lemma MoveKeeps(r: Resolver, s: State)
    requires Good(r, s) && Enabled(s, Move)
    ensures Good(r, Apply(r, s, Move))
  {
    var s' := Apply(r, s, Move);
    var d, f := s.disk, s.disk.live.value;
    var k := |d.archives|;
    var seg := s'.disk.archives[k];
    assert First(f) == 0 <==> f.start.None?;
    ArchiveAdded(r, d.archives, seg);
    assert NewestFile(s'.disk) == f;
  }

  lemma StepTear(r: Resolver, s: State, made: Image)
    requires s.proc.Down?
    ensures Good(r, s) ==> Good(r, Step(r, s, TearFirst(made)))
  {
    if Good(r, s) && Enabled(s, TearFirst(made)) {
      var live := LiveSeg(File(None, [], made));
      assert SegmentFits([live], 0, r);
      assert s.disk.archives + [live] == [live];
    }
  }

  lemma StepKeeps(r: Resolver, s: State, a: Action)
    requires Good(r, s)
    ensures Good(r, Step(r, s, a))
  {
    if Enabled(s, a) {
      match a
      case Boot(image) => BootKeeps(r, s, image);
      case TearFirst(made) => StepTear(r, s, made);
      case StampStart(image) => StampKeeps(r, s, image);
      case RecordClosing(at, salt, image) => ClosingKeeps(r, s, at, salt, image);
      case Append(_, _, _, _, _) => AppendKeeps(r, s, a);
      case Move => MoveKeeps(r, s);
      case _ =>
    }
  }

  lemma {:induction false} RunKeeps(r: Resolver, s: State, run: seq<Action>)
    requires Good(r, s)
    ensures Good(r, Run(r, s, run))
  {
    if run != [] {
      RunKeeps(r, s, run[..|run| - 1]);
      StepKeeps(r, Run(r, s, run[..|run| - 1]), run[|run| - 1]);
    }
  }

  // ----- Writer and verifier agree -----

  /** The verifier, run on the disk the daemon left. */
  ghost predicate VerifierAccepts(r: Resolver, d: Disk) { d.live.Some? && LogFits(LogOf(d), r, None) }

  /** It is refused at the live file, and not before. */
  ghost predicate RefusedAtLive(r: Resolver, d: Disk)
    requires d.live.Some?
  {
    RefusedAt(Segments(LogOf(d)), |d.archives|, r)
  }

  /** The theorem of the two programs: after any run of appends, rotations, failures, crashes and
      starts from an empty disk, the log verifies from genesis if and only if there is a live file
      that is not of length zero and, beside archives, says where it starts. Then its count and tip
      are those of what is on the record. Otherwise it is missing, cannot be read, or is broken, each
      at the live file and not before. */
  lemma WriterAndVerifierAgree(r: Resolver, run: seq<Action>)
    ensures var d := Run(r, EMPTY, run).disk;
            && (VerifierAccepts(r, d) <==> d.live.Some? && !Blank(d) && !Husk(d))
            && (VerifierAccepts(r, d) ==>
                  LogCount(LogOf(d)) == |OnRecord(d)| && LogTip(LogOf(d)) == TipAfter(Genesis, OnRecord(d)))
            && (Blank(d) ==> RefusedAtLive(r, d) && !Open(Segments(LogOf(d))[|d.archives|]))
            && (Husk(d) && !Blank(d) ==> RefusedAtLive(r, d) && Open(Segments(LogOf(d))[|d.archives|]))
  {
    RunKeeps(r, EMPTY, run);
    var d := Run(r, EMPTY, run).disk;
    if Blank(d) {
      BlankRefused(r, d);
    } else if d.live.Some? {
      SegsOf(d, r);
      if Husk(d) { HuskRefused(r, d); } else { GoodAccepted(r, d); }
      if VerifierAccepts(r, d) { AcceptedIsFlat(LogOf(d), r); }
    }
  }

  /** Every archive of a good disk is in order where it stands before the live file. */
  lemma ArchivesFitFirst(r: Resolver, archives: seq<Segment>, live: Segment)
    requires ArchivesGood(r, archives)
    ensures FitUpTo(archives + [live], |archives|, r)
  {
    var segs := archives + [live];
    forall i: nat | i < |archives| ensures Open(segs[i]) && SegmentFits(segs, i, r) {
      assert SegmentFits(archives, i, r) && segs[i] == archives[i];
      if i > 0 { assert segs[i - 1] == archives[i - 1]; }
    }
  }

  lemma BlankRefused(r: Resolver, d: Disk)
    requires ArchivesGood(r, d.archives) && Blank(d)
    ensures !VerifierAccepts(r, d)
    ensures RefusedAtLive(r, d) && !Open(Segments(LogOf(d))[|d.archives|])
  {
    ArchivesFitFirst(r, d.archives, Segment(None, Unreadable));
    assert !Open(Segments(LogOf(d))[|d.archives|]);
  }

  lemma HuskRefused(r: Resolver, d: Disk)
    requires ArchivesGood(r, d.archives) && Husk(d) && !Blank(d)
    ensures !VerifierAccepts(r, d)
    ensures RefusedAtLive(r, d) && Open(Segments(LogOf(d))[|d.archives|])
  {
    var segs, k := Segments(LogOf(d)), |d.archives|;
    SegsOf(d, r);
    NewestEnds(r, d.archives);
    ArchivesFitFirst(r, d.archives, LiveSeg(d.live.value));
    assert segs[k - 1] == d.archives[k - 1] && FileOf(segs[k]) == d.live.value;
    assert !SegmentFits(segs, k, r);
  }

  /** A first start, a first event and the move of a first rotation. */
  function FirstMove(kind: nat, payload: Payload, at: int, salt: nat, image: Written): seq<Action> {
    [Boot(image), Append(kind, payload, at, salt, image)] + [Move]
  }

  /** Each refusal happens: a crash at the right write of a first rotation, or of a first start, leaves
      a disk with no live file, one of length zero, and one that says nothing beside an archive. */
  lemma RefusalsReached(r: Resolver, kind: nat, payload: Payload, at: int, salt: nat, image: Written)
    ensures var moved := Run(r, EMPTY, FirstMove(kind, payload, at, salt, image) + [Crash]);
            moved.disk.live.None? && moved.disk.archives != []
    ensures var torn := Run(r, EMPTY, FirstMove(kind, payload, at, salt, image) + [MakeFile(Image(0, 0)), Crash]);
            Blank(torn.disk) && torn.disk.archives != []
    ensures var made := Run(r, EMPTY, FirstMove(kind, payload, at, salt, image) + [MakeFile(image), Crash]);
            Husk(made.disk) && !Blank(made.disk)
    ensures var first := Run(r, EMPTY, [TearFirst(Image(0, 0))]);
            Blank(first.disk) && first.disk.archives == []
  {
    var move := FirstMove(kind, payload, at, salt, image);
    var s := Run(r, EMPTY, move);
    MovedFirst(r, kind, payload, at, salt, image);
    RunThen(r, EMPTY, move, [Crash]);
    RunOne(r, s, Crash);
    RunThen(r, EMPTY, move, [MakeFile(Image(0, 0)), Crash]);
    RunTwo(r, s, MakeFile(Image(0, 0)), Crash);
    RunThen(r, EMPTY, move, [MakeFile(image), Crash]);
    RunTwo(r, s, MakeFile(image), Crash);
    RunOne(r, EMPTY, TearFirst(Image(0, 0)));
  }

  lemma MovedFirst(r: Resolver, kind: nat, payload: Payload, at: int, salt: nat, image: Written)
    ensures var s := Run(r, EMPTY, FirstMove(kind, payload, at, salt, image));
            s.proc.Moved? && s.disk.live.None? && |s.disk.archives| == 1
  {
    var boot, append := Boot(image), Append(kind, payload, at, salt, image);
    var s1 := Step(r, EMPTY, boot);
    var s2 := Step(r, s1, append);
    RunTwo(r, EMPTY, boot, append);
    RunThen(r, EMPTY, [boot, append], [Move]);
    RunOne(r, s2, Move);
    assert s1.proc == Serving(0, 0, Genesis) && s1.disk.archives == [];
    assert s2.proc.Serving? && s2.proc.base == 0 && s2.proc.n == 1 && s2.disk.archives == [];
  }

  lemma GoodAccepted(r: Resolver, d: Disk)
    requires ArchivesGood(r, d.archives) && LiveGood(r, d) && d.live.Some? && !Husk(d) && !Blank(d)
    ensures VerifierAccepts(r, d)
  {
    var segs := Segments(LogOf(d));
    SegsOf(d, r);
    if d.archives != [] {
      assert segs[0] == d.archives[0];
    } else {
      assert SegmentFits(segs, 0, r);
    }
  }

  // ----- The record only grows, and a start always recovers -----

  predicate Writes(s: State, a: Action) { Enabled(s, a) && (a.Append? || a.RecordClosing?) }

  lemma StepRecord(r: Resolver, s: State, a: Action)
    requires Good(r, s)
    ensures OnRecord(s.disk) <= OnRecord(Step(r, s, a).disk)
    ensures |OnRecord(Step(r, s, a).disk)| == |OnRecord(s.disk)| + if Writes(s, a) then 1 else 0
  {
    if Enabled(s, a) {
      match a {
        case Boot(image) => BootRecord(r, s, image);
        case Move => MoveRecord(r, s);
        case StampStart(image) => StampRecord(r, s, image);
        case RecordClosing(_, _, _) => WriteRecord(r, s, a);
        case Append(_, _, _, _, _) => WriteRecord(r, s, a);
        case _ => QuietRecord(r, s, a);
      }
    }
  }

  lemma BootRecord(r: Resolver, s: State, image: Written)
    requires Good(r, s) && s.proc.Down?
    ensures OnRecord(Booted(s.disk, image, r).disk) == OnRecord(s.disk)
  {
    BootedIs(r, s.disk, image);
  }

  lemma MoveRecord(r: Resolver, s: State)
    requires Enabled(s, Move)
    ensures OnRecord(Apply(r, s, Move).disk) == OnRecord(s.disk)
  {
    assert Apply(r, s, Move).disk.archives[..|s.disk.archives|] == s.disk.archives;
  }

  /** A write of an event: it is the one event more. */
  lemma WriteRecord(r: Resolver, s: State, a: Action)
    requires Enabled(s, a) && (a.RecordClosing? || a.Append?)
    ensures OnRecord(s.disk) <= OnRecord(Apply(r, s, a).disk)
    ensures |OnRecord(Apply(r, s, a).disk)| == |OnRecord(s.disk)| + 1
  {
  }

  /** A step that makes or unmakes an empty file, or writes nothing. */
  lemma QuietRecord(r: Resolver, s: State, a: Action)
    requires Enabled(s, a) && (s.proc.Making? ==> Husk(s.disk))
    requires a.TearFirst? || a.MakeFile? || a.UnmakeFile? || a.Refuse? || a.Crash?
    ensures OnRecord(Apply(r, s, a).disk) == OnRecord(s.disk)
  {
  }

  lemma StampRecord(r: Resolver, s: State, image: Written)
    requires Good(r, s) && Enabled(s, StampStart(image))
    ensures OnRecord(Apply(r, s, StampStart(image)).disk) == OnRecord(s.disk)
  {
  }

  /** How many of the steps of a run wrote an event. */
  function WrittenIn(r: Resolver, s: State, run: seq<Action>): nat {
    if run == [] then 0
    else
      var init := run[..|run| - 1];
      WrittenIn(r, s, init) + if Writes(Run(r, s, init), run[|run| - 1]) then 1 else 0
  }

  /** Nothing on the record is ever lost or changed, whatever crashes come between, and its count is
      the number of events written. */
  lemma {:induction false} RecordOnlyGrows(r: Resolver, s: State, run: seq<Action>)
    requires Good(r, s)
    ensures OnRecord(s.disk) <= OnRecord(Run(r, s, run).disk)
    ensures |OnRecord(Run(r, s, run).disk)| == |OnRecord(s.disk)| + WrittenIn(r, s, run)
  {
    if run != [] {
      var init := run[..|run| - 1];
      RecordOnlyGrows(r, s, init);
      RunKeeps(r, s, init);
      StepRecord(r, Run(r, s, init), run[|run| - 1]);
    }
  }

  function Recovered(r: Resolver, s: State, image: Written, at: int, salt: nat): (s': State) {
    var s1 := Step(r, s, Boot(image));
    var s2 := Step(r, s1, MakeFile(image));
    var s3 := Step(r, s2, StampStart(image));
    Step(r, s3, RecordClosing(at, salt, image))
  }

  lemma OpenedRecords(r: Resolver, s: State, image: Written, at: int, salt: nat)
    requires Good(r, s) && s.proc.Opened?
    ensures Enabled(s, RecordClosing(at, salt, image)) && Step(r, s, RecordClosing(at, salt, image)).proc.Serving?
  {
    var newest := s.disk.archives[|s.disk.archives| - 1];
    assert WellNamed(newest);
    FindNewest(s.disk.archives);
  }

  lemma MovedOpens(r: Resolver, s: State, image: Written)
    requires Good(r, s) && s.proc.Moved?
    ensures Step(r, Step(r, s, MakeFile(image)), StampStart(image)).proc.Opened?
  {
  }

  /** From any disk a crash leaves, a start and the steps it takes end in service with every
      closing on the record, and the verifier accepts what is there. */
  lemma StartRecovers(r: Resolver, s: State, image: Written, at: int, salt: nat)
    requires Good(r, s) && s.proc.Down?
    ensures var s' := Recovered(r, s, image, at, salt);
            && Good(r, s') && s'.proc.Serving? && VerifierAccepts(r, s'.disk)
            && OnRecord(s.disk) <= OnRecord(s'.disk)
  {
    OpensOrServes(r, s, image);
    var s3 := Step(r, Step(r, Step(r, s, Boot(image)), MakeFile(image)), StampStart(image));
    KeptAndGrown(r, s3, RecordClosing(at, salt, image));
    if s3.proc.Opened? { OpenedRecords(r, s3, image, at, salt); }
    GoodAccepted(r, Step(r, s3, RecordClosing(at, salt, image)).disk);
  }

  lemma OpensOrServes(r: Resolver, s: State, image: Written)
    requires Good(r, s) && s.proc.Down?
    ensures var s3 := Step(r, Step(r, Step(r, s, Boot(image)), MakeFile(image)), StampStart(image));
            Good(r, s3) && (s3.proc.Opened? || s3.proc.Serving?) && OnRecord(s.disk) <= OnRecord(s3.disk)
  {
    var a1, a2, a3 := Boot(image), MakeFile(image), StampStart(image);
    var s1 := Step(r, s, a1);
    KeptAndGrown(r, s, a1);
    KeptAndGrown(r, s1, a2);
    KeptAndGrown(r, Step(r, s1, a2), a3);
    BootedIs(r, s.disk, image);
    if s1.proc.Moved? { MovedOpens(r, s1, image); }
  }

  lemma KeptAndGrown(r: Resolver, s: State, a: Action)
    requires Good(r, s)
    ensures Good(r, Step(r, s, a)) && OnRecord(s.disk) <= OnRecord(Step(r, s, a).disk)
  {
    StepKeeps(r, s, a);
    StepRecord(r, s, a);
  }
}
