/** Archives shipped away: the operator takes the oldest closed segments off the disk when they
    choose, and the daemon goes on, or does not. */
module AuditShipping {
  import opened Options
  import opened AuditLog
  import opened AuditLogTheorems
  import opened AuditLogTip
  import opened AuditWriter
  import opened AuditDaemon

  /** The state without its k oldest archives. */
  function Shipped(s: State, k: nat): State
    requires k <= |s.disk.archives|
  {
    s.(disk := s.disk.(archives := s.disk.archives[k..]))
  }

  /** An archive is left to continue from, or the live file already holds an event; or none was
      shipped. */
  predicate Continues(d: Disk, k: nat) {
    k < |d.archives| || (k == |d.archives| && (k == 0 || (d.live.Some? && d.live.value.events != [])))
  }

  /** What a start makes of a disk whose k oldest archives were shipped: the chain goes on as if they
      were there if and only if an archive is left, the live file holds an event or none was shipped.
      Otherwise a live file that says where it starts is refused, and without one a new chain begins
      at genesis. */
  lemma StartAfterShipping(r: Resolver, s: State, k: nat, image: Written)
    requires Good(r, s) && s.proc.Down? && k <= |s.disk.archives|
    ensures var (d, s') := (s.disk, Booted(Shipped(s, k).disk, image, r));
            && (Continues(d, k) <==> s' == Shipped(Booted(d, image, r), k))
            && (!Continues(d, k) && d.live.Some? && d.live.value.start.Some? ==> s'.proc.Down?)
            && (!Continues(d, k) && (d.live.None? || Husk(d)) ==>
                   s'.proc == Serving(0, 0, Genesis) && OnRecord(s'.disk) == [])
            && (!Continues(d, k) ==> d.live.None? || Husk(d) || d.live.value.start.Some?)
  {
    var d := s.disk;
    BootedIs(r, d, image);
    if d.live.Some? && !Husk(d) { LiveContinues(r, d); }
    if k < |d.archives| { StartAlike(r, d, k, image); }
  }

  /** While an archive is left. */
  lemma StartAlike(r: Resolver, d: Disk, k: nat, image: Written)
    requires ArchivesGood(r, d.archives) && LiveGood(r, d) && k < |d.archives|
    ensures var s' := Booted(d, image, r);
            Booted(d.(archives := d.archives[k..]), image, r)
            == s'.(disk := s'.disk.(archives := s'.disk.archives[k..]))
  {
    var rest := d.archives[k..];
    BootedIs(r, d, image);
    NewestEnds(r, d.archives);
    FindNewest(rest);
    assert rest[|rest| - 1] == d.archives[|d.archives| - 1];
    if d.live.Some? && !Husk(d) { LiveContinues(r, d); }
  }

  /** The daemon takes the step alike, with the archives and without. */
  ghost predicate Alike(r: Resolver, s: State, k: nat, a: Action)
    requires k <= |s.disk.archives|
  {
    var s' := Step(r, s, a);
    k <= |s'.disk.archives| && Continues(s'.disk, k) && Step(r, Shipped(s, k), a) == Shipped(s', k)
  }

  lemma StepAfterShipping(r: Resolver, s: State, k: nat, a: Action)
    requires Good(r, s) && k <= |s.disk.archives| && Continues(s.disk, k)
    ensures Alike(r, s, k, a)
  {
    match a {
      case Boot(image) => if s.proc.Down? { BootAfterShipping(r, s, k, image); }
      case Move => MoveAfterShipping(r, s, k);
      case StampStart(image) => StampAfterShipping(r, s, k, image);
      case RecordClosing(at, salt, image) => ClosingAfterShipping(r, s, k, at, salt, image);
      case _ => LiveAfterShipping(r, s, k, a);
    }
  }

  lemma BootAfterShipping(r: Resolver, s: State, k: nat, image: Written)
    requires Good(r, s) && s.proc.Down? && k <= |s.disk.archives| && Continues(s.disk, k)
    ensures Alike(r, s, k, Boot(image))
  {
    StartAfterShipping(r, s, k, image);
    BootedIs(r, s.disk, image);
  }

  /** A step that touches no archive. */
  lemma LiveAfterShipping(r: Resolver, s: State, k: nat, a: Action)
    requires ProcLive(s) && k <= |s.disk.archives| && Continues(s.disk, k)
    requires a.TearFirst? || a.MakeFile? || a.UnmakeFile? || a.Append? || a.Refuse? || a.Crash?
    ensures Alike(r, s, k, a)
  {
  }

  /** While a rotation is under way the live file holds no event, and an archive is there. */
  predicate ProcLive(s: State) {
    && (s.proc.Moved? ==> s.disk.live.None? && s.disk.archives != [])
    && (s.proc.Making? ==> Husk(s.disk))
    && (s.proc.Opened? ==> s.disk.live.Some? && s.disk.live.value.events == [] && s.disk.archives != [])
  }

  lemma StampAfterShipping(r: Resolver, s: State, k: nat, image: Written)
    requires ProcLive(s) && k <= |s.disk.archives| && Continues(s.disk, k)
    ensures Alike(r, s, k, StampStart(image))
  {
    var archives := s.disk.archives;
    if s.proc.Making? { assert archives[k..][|archives| - k - 1] == archives[|archives| - 1]; }
  }

  lemma ClosingAfterShipping(r: Resolver, s: State, k: nat, at: int, salt: nat, image: Written)
    requires Good(r, s) && k <= |s.disk.archives| && Continues(s.disk, k)
    ensures Alike(r, s, k, RecordClosing(at, salt, image))
  {
    var d, rest := s.disk, s.disk.archives[k..];
    if s.proc.Opened? {
      assert WellNamed(d.archives[|d.archives| - 1]);
      FindNewest(d.archives);
      FindNewest(rest);
      assert rest[|rest| - 1] == d.archives[|d.archives| - 1];
    }
  }

  lemma MoveAfterShipping(r: Resolver, s: State, k: nat)
    requires Good(r, s) && k <= |s.disk.archives| && Continues(s.disk, k)
    ensures Alike(r, s, k, Move)
  {
    var d, rest := s.disk, s.disk.archives[k..];
    assert forall a | a in rest :: a in d.archives;
    if s.proc.Serving? && s.proc.n > s.proc.base {
      NameIsFree(r, s);
      var moved := Step(r, s, Move).disk.archives;
      assert moved[k..] == rest + [moved[|d.archives|]];
    }
  }

  /** From then on the daemon runs as if the archives were still there, whatever happens. */
  lemma {:induction false} RunsAfterShipping(r: Resolver, s: State, k: nat, run: seq<Action>)
    requires Good(r, s) && k <= |s.disk.archives| && Continues(s.disk, k)
    ensures var s' := Run(r, s, run);
            k <= |s'.disk.archives| && Continues(s'.disk, k) && Run(r, Shipped(s, k), run) == Shipped(s', k)
  {
    if run != [] {
      RunsAfterShipping(r, s, k, run[..|run| - 1]);
      RunKeeps(r, s, run[..|run| - 1]);
      StepAfterShipping(r, Run(r, s, run[..|run| - 1]), k, run[|run| - 1]);
    }
  }

  /** A crash of a first rotation before its fresh file says where it starts, and the archive shipped:
      the next start begins a chain of its own. */
  lemma StartsOver(r: Resolver, kind: nat, payload: Payload, at: int, salt: nat, image: Written)
    ensures var s := Run(r, EMPTY, FirstMove(kind, payload, at, salt, image) + [Crash]);
            && |s.disk.archives| == 1 && OnRecord(s.disk) != []
            && Step(r, Shipped(s, 1), Boot(image)).proc == Serving(0, 0, Genesis)
            && OnRecord(Step(r, Shipped(s, 1), Boot(image)).disk) == []
  {
    var run := FirstMove(kind, payload, at, salt, image);
    MovedFirst(r, kind, payload, at, salt, image);
    RunThen(r, EMPTY, run, [Crash]);
    RunOne(r, Run(r, EMPTY, run), Crash);
    var s := Run(r, EMPTY, run + [Crash]);
    RunKeeps(r, EMPTY, run + [Crash]);
    StartAfterShipping(r, s, 1, image);
    NewestEnds(r, s.disk.archives);
  }

  /** And what is left verifies under the tip the operator recorded, with the count and tip of the
      whole record, wherever the whole would. */
  lemma ShippedVerifies(r: Resolver, run: seq<Action>, k: nat)
    requires var d := Run(r, EMPTY, run).disk; k <= |d.archives| && VerifierAccepts(r, d)
    ensures var d := Run(r, EMPTY, run).disk;
            var rest := LogOf(d.(archives := d.archives[k..]));
            && LogFits(rest, r, Some(Prev(FileOf(Segments(LogOf(d))[k]))))
            && LogCount(rest) == |OnRecord(d)| && LogTip(rest) == TipAfter(Genesis, OnRecord(d))
  {
    WriterAndVerifierAgree(r, run);
    MovedAwayVerifies(LogOf(Run(r, EMPTY, run).disk), r, None, k);
  }
}
