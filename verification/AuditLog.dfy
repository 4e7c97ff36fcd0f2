/** The audit log in segments: what is on disk, what a log that verifies looks like, and the
    program that verifies it. */
module AuditLog {
  import opened Options

  // ----- Events and files, with ideal hashes -----

  /** SHA-256 of an event's canonical bytes, as an ideal hash: equal only for equal content, and
      never the zeros a chain starts from. */
  datatype Hash = Genesis | Sha(prev: Hash, content: Content)

  /** What an event's hash covers beside the link: everything but the signature. */
  datatype Content = Content(kind: Kind, payload: Payload, keyId: nat, at: int)

  datatype Kind = SegmentClosed | OtherKind(id: nat)

  /** A payload that decodes as a closing record, or any other bytes. */
  datatype Payload = Closing(record: ClosedSegment) | OtherBytes(id: nat)

  datatype Name = SegmentName(first: int, last: int) | OtherName(id: nat)

  datatype ClosedSegment = ClosedSegment(
    schemaOk: bool, segment: Name, first: int, last: int, tip: Hash, sha: FileHash, bytes: nat)

  /** A signature: the key it was made with, what it covers, and the signer's randomness. */
  datatype Signature = Signature(key: nat, over: Hash, salt: nat)

  datatype Event = Event(prevHash: Hash, content: Content, hash: Hash, signature: Signature)

  /** Where a file that continues an archive starts. */
  datatype Start = Start(first: int, prevTip: Hash, prevSegment: Name)

  /** A file: what it holds, and the byte image it holds it in, which a read-write open moves even
      when it writes no event. */
  datatype Image = Image(id: nat, size: nat)
  datatype File = File(start: Option<Start>, events: seq<Event>, image: Image)

  /** The image of a file that has been initialised. */
  type Written = i: Image | i.size > 0 witness Image(0, 1)

  /** SHA-256 of a file's bytes, ideal. */
  datatype FileHash = FileSha(file: File)

  datatype Archive = Archive(name: Name, first: int, last: int)

  /** A file on disk, or one that cannot be opened and read. */
  datatype Stored = Unreadable | Readable(file: File)

  /** One file of the log; archive is None for the live file. */
  datatype Segment = Segment(archive: Option<Archive>, stored: Stored)

  datatype Log = Log(archives: seq<Segment>, live: Stored)

  /** The archives as they are listed, oldest first, then the live file. */
  function Segments(log: Log): seq<Segment> { log.archives + [Segment(None, log.live)] }

  /** The archives of a listing are archives. */
  predicate Listed(log: Log) { forall k | 0 <= k < |log.archives| :: log.archives[k].archive.Some? }

  /** The one key the verifier accepts. */
  datatype Resolver = Resolver(keyId: nat, key: nat)

  predicate Verifies(e: Event, r: Resolver) {
    && e.hash == Sha(e.prevHash, e.content)
    && e.content.keyId == r.keyId
    && e.signature.key == r.key && e.signature.over == e.hash
  }

  // ----- One file -----

  predicate StartValid(f: File) { f.start.Some? ==> f.start.value.first > 0 }

  function First(f: File): int { if f.start.Some? then f.start.value.first else 0 }

  function Prev(f: File): Hash { if f.start.Some? then f.start.value.prevTip else Genesis }

  /** The log's count and tip after the file's events. */
  function EndIndex(f: File): int { First(f) + |f.events| }

  function TipAfter(prev: Hash, events: seq<Event>): Hash {
    if events == [] then prev else events[|events| - 1].hash
  }

  function EndTip(f: File): Hash { TipAfter(Prev(f), f.events) }

  /** Every event links to the one before it, the first to prev, and verifies. */
  predicate Chained(prev: Hash, events: seq<Event>, r: Resolver) {
    forall j | 0 <= j < |events| ::
      events[j].prevHash == TipAfter(prev, events[..j]) && Verifies(events[j], r)
  }

  predicate ClosingOnlyFirst(events: seq<Event>) {
    forall j | 0 < j < |events| :: !events[j].content.kind.SegmentClosed?
  }

  /** An archive as the verifier saw it: its name, its hash and its length. */
  datatype Seen = Seen(archive: Archive, sha: FileHash, bytes: nat)

  /** checkClosing: the record names the tip it links to and, when the archive before it is here,
      that archive, its indices, its hash and its length. */
  predicate ClosingFits(e: Event, before: Option<Seen>) {
    && e.content.payload.Closing?
    && var closed := e.content.payload.record;
    && closed.schemaOk
    && closed.tip == e.prevHash
    && (before.Some? ==>
          && closed.segment == before.value.archive.name
          && (closed.first, closed.last) == (before.value.archive.first, before.value.archive.last)
          && (closed.sha, closed.bytes) == (before.value.sha, before.value.bytes))
  }

  /** A segment that continues another opens with the record of its closing. */
  predicate OpensRight(f: File, before: Option<Seen>) {
    f.events != [] ==>
      && (f.events[0].content.kind.SegmentClosed? ==> ClosingFits(f.events[0], before))
      && (First(f) > 0 ==> f.events[0].content.kind.SegmentClosed?)
  }

  predicate NamedRight(seg: Segment, f: File) {
    seg.archive.Some? ==>
      First(f) == seg.archive.value.first && EndIndex(f) - 1 == seg.archive.value.last
  }

  // ----- A log that verifies -----

  /** The file of a segment; an unreadable one counts as empty, and is refused before it is used. */
  function FileOf(seg: Segment): File {
    if seg.stored.Readable? then seg.stored.file else File(None, [], Image(0, 0))
  }

  predicate Open(seg: Segment) { seg.stored.Readable? && StartValid(seg.stored.file) }

  predicate AllOpen(segs: seq<Segment>) { forall k | 0 <= k < |segs| :: Open(segs[k]) }

  function SeenAs(seg: Segment): Option<Seen> {
    if seg.archive.Some? then
      Some(Seen(seg.archive.value, FileSha(FileOf(seg)), FileOf(seg).image.size))
    else None
  }

  function Before(segs: seq<Segment>, k: nat): Option<Seen>
    requires k < |segs|
  {
    if k == 0 then None else SeenAs(segs[k - 1])
  }

  /** The k-th segment: it starts where the one before it ended, its events chain and verify, it
      opens with the right record, and an archive is what its name says. */
  predicate SegmentFits(segs: seq<Segment>, k: nat, r: Resolver)
    requires k < |segs|
  {
    var f := FileOf(segs[k]);
    && (k > 0 ==> First(f) == EndIndex(FileOf(segs[k - 1])) && Prev(f) == EndTip(FileOf(segs[k - 1])))
    && Chained(Prev(f), f.events, r)
    && ClosingOnlyFirst(f.events)
    && OpensRight(f, Before(segs, k))
    && NamedRight(segs[k], f)
  }

  ghost predicate AllFit(segs: seq<Segment>, r: Resolver) {
    AllOpen(segs) && forall k: nat | k < |segs| :: SegmentFits(segs, k, r)
  }

  /** The oldest segment present starts at genesis, or the operator vouches for what it follows. */
  predicate Vouched(seg: Segment, fromTip: Option<Hash>) {
    var f := FileOf(seg);
    (First(f) == 0 && Prev(f) == Genesis) || fromTip == Some(Prev(f))
  }

  ghost predicate LogFits(log: Log, r: Resolver, fromTip: Option<Hash>) {
    AllFit(Segments(log), r) && Vouched(Segments(log)[0], fromTip)
  }

  /** The log's count and tip after its last event. */
  function LogCount(log: Log): int { EndIndex(FileOf(Segment(None, log.live))) }

  function LogTip(log: Log): Hash { EndTip(FileOf(Segment(None, log.live))) }

  // ----- The verifier -----

  /** A file as the verifier saw it; the name is None for the live path. */
  datatype Report = Report(
    name: Option<Name>, first: int, events: nat, tip: Option<Hash>, sha: Option<FileHash>, bytes: nat, live: bool)

  function ReportOf(seg: Segment): Report {
    var f := FileOf(seg);
    Report(if seg.archive.Some? then Some(seg.archive.value.name) else None,
           First(f), |f.events|, if f.events == [] then None else Some(EndTip(f)),
           if seg.archive.Some? then Some(FileSha(f)) else None,
           if seg.archive.Some? then f.image.size else 0,
           seg.archive.None?)
  }

  ghost predicate Reports(segs: seq<Segment>, reports: seq<Report>) {
    AllOpen(segs) && |reports| == |segs| && forall k | 0 <= k < |segs| :: reports[k] == ReportOf(segs[k])
  }

  /** What the oldest segment continues from, when it is not genesis. */
  function StartsAfter(f: File): Option<Hash> {
    if First(f) == 0 && Prev(f) == Genesis then None else Some(Prev(f))
  }

  datatype Verdict =
    | Accepted(segments: seq<Report>, count: int, tip: Hash, startsAfter: Option<Hash>)
    | Missing      // there is no live file
    | ReadError
    | Incomplete(continues: Hash)   // what the operator would have to vouch for
    | Broken

  /** The first n segments are in order. */
  ghost predicate FitUpTo(segs: seq<Segment>, n: nat, r: Resolver) {
    && n <= |segs|
    && (forall i: nat | i < n :: Open(segs[i]))
    && (forall i: nat | i < n :: SegmentFits(segs, i, r))
  }

  /** Where the n-th segment has to start: where the one before it ended. */
  function ExpectedAt(segs: seq<Segment>, n: nat): Option<(int, Hash)>
    requires n <= |segs|
  {
    if n == 0 then None else Some((EndIndex(FileOf(segs[n - 1])), EndTip(FileOf(segs[n - 1]))))
  }

  /** The log is refused at its k-th segment, and not before. */
  ghost predicate RefusedAt(segs: seq<Segment>, k: nat, r: Resolver) {
    && k < |segs|
    && FitUpTo(segs, k, r)
    && (Open(segs[k]) ==> !SegmentFits(segs, k, r))
  }

  /** An event of a file that starts at first, its j-th, links to what came before and verifies, and
      is the record of a closing exactly where one belongs. */
  predicate EventFits(e: Event, j: nat, first: int, link: Hash, prevArchive: Option<Seen>, r: Resolver) {
    && e.prevHash == link && Verifies(e, r)
    && (if e.content.kind.SegmentClosed? then j == 0 && ClosingFits(e, prevArchive) else j == 0 ==> first <= 0)
  }

  predicate EventFitsAt(f: File, j: nat, prevArchive: Option<Seen>, r: Resolver)
    requires j < |f.events|
  {
    EventFits(f.events[j], j, First(f), TipAfter(Prev(f), f.events[..j]), prevArchive, r)
  }

  predicate FitsTo(f: File, n: nat, prevArchive: Option<Seen>, r: Resolver)
    requires n <= |f.events|
  {
    forall j: nat | j < n :: EventFitsAt(f, j, prevArchive, r)
  }

  lemma TipNext(prev: Hash, events: seq<Event>, n: nat)
    requires n < |events|
    ensures TipAfter(prev, events[..n + 1]) == events[n].hash
  {
  }

  lemma EveryEventFits(f: File, prevArchive: Option<Seen>, r: Resolver)
    ensures FitsTo(f, |f.events|, prevArchive, r) <==>
            Chained(Prev(f), f.events, r) && ClosingOnlyFirst(f.events) && OpensRight(f, prevArchive)
  {
    if Chained(Prev(f), f.events, r) && ClosingOnlyFirst(f.events) && OpensRight(f, prevArchive) {
      forall j: nat | j < |f.events| ensures EventFitsAt(f, j, prevArchive, r) {}
    }
    if FitsTo(f, |f.events|, prevArchive, r) {
      forall j | 0 <= j < |f.events|
        ensures f.events[j].prevHash == TipAfter(Prev(f), f.events[..j]) && Verifies(f.events[j], r)
        ensures j > 0 ==> !f.events[j].content.kind.SegmentClosed?
      {
        assert EventFitsAt(f, j, prevArchive, r);
      }
      if f.events != [] { assert EventFitsAt(f, 0, prevArchive, r); }
    }
  }

  /** The walk's turn: a link or signature that does not verify, a closing record inside a segment
      or one that does not match, and a continued segment without one, are refused. */
  method CheckEvent(evt: Event, count: nat, first: int, expectedPrev: Hash, prevArchive: Option<Seen>, r: Resolver)
    returns (ok: bool)
    ensures ok <==> EventFits(evt, count, first, expectedPrev, prevArchive, r)
    ensures ok ==>
              && evt.hash == Sha(expectedPrev, evt.content)
              && evt.content.keyId == r.keyId && evt.signature.key == r.key && evt.signature.over == evt.hash
  {
    if evt.prevHash != expectedPrev || !Verifies(evt, r) { return false; }
    if evt.content.kind.SegmentClosed? && count != 0 {
      return false;
    } else if evt.content.kind.SegmentClosed? {
      if !ClosingFits(evt, prevArchive) { return false; }
    } else if count == 0 && first > 0 {
      return false;
    }
    ok := true;
  }

  /** The walk over one segment's events: it stops at the first that does not fit. */
  method WalkSegment(f: File, prevArchive: Option<Seen>, r: Resolver) returns (ok: bool, count: nat, tip: Option<Hash>)
    ensures ok <==> Chained(Prev(f), f.events, r) && ClosingOnlyFirst(f.events) && OpensRight(f, prevArchive)
    ensures ok ==> count == |f.events| && tip == if f.events == [] then None else Some(EndTip(f))
  {
    var expectedPrev := Prev(f);
    count, tip := 0, None;
    while count < |f.events|
      invariant 0 <= count <= |f.events|
      invariant expectedPrev == TipAfter(Prev(f), f.events[..count])
      invariant tip == if count == 0 then None else Some(expectedPrev)
      invariant FitsTo(f, count, prevArchive, r)
    {
      var evt := f.events[count];
      var fits := CheckEvent(evt, count, First(f), expectedPrev, prevArchive, r);
      if !fits {
        assert !EventFitsAt(f, count, prevArchive, r);
        EveryEventFits(f, prevArchive, r);
        return false, count, tip;
      }
      TipNext(Prev(f), f.events, count);
      count, expectedPrev, tip := count + 1, evt.hash, Some(evt.hash);
    }
    assert f.events[..count] == f.events;
    EveryEventFits(f, prevArchive, r);
    ok := true;
  }

  /** One turn of the pass: the segment continues from what is expected, its events walk, and an
      archive holds what its name says. */
  method CheckSegment(segs: seq<Segment>, k: nat, expected: Option<(int, Hash)>, prevArchive: Option<Seen>, r: Resolver)
    returns (ok: bool, report: Report)
    requires k < |segs| && expected == ExpectedAt(segs, k) && prevArchive == Before(segs, k)
    ensures ok <==> SegmentFits(segs, k, r)
    ensures ok ==> report == ReportOf(segs[k])
  {
    var seg, f := segs[k], FileOf(segs[k]);
    var first, prev := First(f), Prev(f);
    report := Report(None, first, 0, None, None, 0, seg.archive.None?);
    if seg.archive.Some? {
      report := report.(name := Some(seg.archive.value.name), sha := Some(FileSha(f)), bytes := f.image.size);
    }
    if expected.Some? && (first != expected.value.0 || prev != expected.value.1) { return false, report; }
    var walked, count, tip := WalkSegment(f, prevArchive, r);
    if !walked { return false, report; }
    if seg.archive.Some? && (first != seg.archive.value.first || first + count - 1 != seg.archive.value.last) {
      return false, report;
    }
    ok, report := true, report.(events := count, tip := tip);
  }

  lemma RefusedDoesNotFit(log: Log, r: Resolver, fromTip: Option<Hash>, k: nat)
    requires RefusedAt(Segments(log), k, r)
    ensures !LogFits(log, r, fromTip)
  {
  }

  /** What the pass carries past its first n segments. */
  datatype Carried = Carried(
    expected: Option<(int, Hash)>, prevArchive: Option<Seen>, reports: seq<Report>, startsAfter: Option<Hash>)

  ghost predicate Passed(segs: seq<Segment>, n: nat, r: Resolver, fromTip: Option<Hash>, c: Carried) {
    && FitUpTo(segs, n, r)
    && c.expected == ExpectedAt(segs, n)
    && (n < |segs| ==> c.prevArchive == Before(segs, n))
    && Reports(segs[..n], c.reports)
    && (if n == 0 then c.startsAfter == None
        else Vouched(segs[0], fromTip) && c.startsAfter == StartsAfter(FileOf(segs[0])))
  }

  lemma PassedNext(segs: seq<Segment>, k: nat, r: Resolver, fromTip: Option<Hash>,
                   c: Carried, startsAfter: Option<Hash>)
    requires k < |segs| && Passed(segs, k, r, fromTip, c) && Open(segs[k]) && SegmentFits(segs, k, r)
    requires k == 0 ==> Vouched(segs[0], fromTip)
    requires startsAfter == if k == 0 then StartsAfter(FileOf(segs[0])) else c.startsAfter
    ensures var f := FileOf(segs[k]);
            Passed(segs, k + 1, r, fromTip,
                   Carried(Some((EndIndex(f), EndTip(f))), SeenAs(segs[k]), c.reports + [ReportOf(segs[k])],
                           startsAfter))
  {
    assert segs[..k + 1] == segs[..k] + [segs[k]];
  }

  /** The oldest segment present: what it starts after, and whether the operator vouches for it. */
  method CheckStart(seg: Segment, fromTip: Option<Hash>) returns (ok: bool, startsAfter: Option<Hash>)
    ensures ok <==> Vouched(seg, fromTip)
    ensures startsAfter == StartsAfter(FileOf(seg))
  {
    var f := FileOf(seg);
    if First(f) == 0 && Prev(f) == Genesis { return true, None; }
    startsAfter := Some(Prev(f));
    if fromTip == None { return false, startsAfter; }
    ok := fromTip.value == Prev(f);
  }

  /** verifyAuditLog: one pass over the segments, carrying the expected index and link and the last
      archive seen. */
  method VerifyAuditLog(log: Log, r: Resolver, fromTip: Option<Hash>) returns (v: Verdict)
    requires Listed(log)
    ensures v.Accepted? <==> LogFits(log, r, fromTip)
    ensures !v.Missing?
    ensures v.Accepted? ==>
              && v.count == LogCount(log) && v.tip == LogTip(log)
              && Reports(Segments(log), v.segments)
              && v.startsAfter == StartsAfter(FileOf(Segments(log)[0]))
    ensures v.Incomplete? <==> Open(Segments(log)[0]) && !Vouched(Segments(log)[0], fromTip)
    ensures v.Incomplete? ==> Vouched(Segments(log)[0], Some(v.continues))
    ensures v.ReadError? ==> exists k: nat :: RefusedAt(Segments(log), k, r) && !Open(Segments(log)[k])
    ensures v.Broken? ==> exists k: nat :: RefusedAt(Segments(log), k, r) && Open(Segments(log)[k])
  {
    var segs := Segments(log);
    var carried := Carried(None, None, [], None);
    for k := 0 to |segs|
      invariant Passed(segs, k, r, fromTip, carried)
    {
      var seg := segs[k];
      if seg.stored.Unreadable? || !StartValid(seg.stored.file) {
        RefusedDoesNotFit(log, r, fromTip, k);
        return ReadError;
      }
      var startsAfter := carried.startsAfter;
      if k == 0 {
        var vouched;
        vouched, startsAfter := CheckStart(seg, fromTip);
        if !vouched { return Incomplete(startsAfter.value); }
      }
      var ok, report := CheckSegment(segs, k, carried.expected, carried.prevArchive, r);
      if !ok {
        RefusedDoesNotFit(log, r, fromTip, k);
        return Broken;
      }
      PassedNext(segs, k, r, fromTip, carried, startsAfter);
      var f := FileOf(seg);
      carried := Carried(Some((EndIndex(f), EndTip(f))), SeenAs(seg), carried.reports + [report], startsAfter);
    }
    v := Accepted(carried.reports, carried.expected.value.0, carried.expected.value.1, carried.startsAfter);
  }

  /** openAuditLog, and the verifier on what it opens: without a live file nothing is verified. */
  method VerifyFiles(archives: seq<Segment>, live: Option<Stored>, r: Resolver, fromTip: Option<Hash>)
    returns (v: Verdict)
    requires forall k | 0 <= k < |archives| :: archives[k].archive.Some?
    ensures v.Missing? <==> live.None?
    ensures v.Accepted? <==> live.Some? && LogFits(Log(archives, live.value), r, fromTip)
    ensures v.Accepted? ==> v.count == LogCount(Log(archives, live.value)) && v.tip == LogTip(Log(archives, live.value))
    ensures v.ReadError? ==>
              exists k: nat :: RefusedAt(Segments(Log(archives, live.value)), k, r)
                && !Open(Segments(Log(archives, live.value))[k])
    ensures v.Broken? ==>
              exists k: nat :: RefusedAt(Segments(Log(archives, live.value)), k, r)
                && Open(Segments(Log(archives, live.value))[k])
  {
    if live.None? { return Missing; }
    v := VerifyAuditLog(Log(archives, live.value), r, fromTip);
  }

  lemma ChainedExtends(prev: Hash, events: seq<Event>, n: nat, r: Resolver)
    requires n < |events| && Chained(prev, events[..n], r)
    requires events[n].prevHash == TipAfter(prev, events[..n]) && Verifies(events[n], r)
    ensures Chained(prev, events[..n + 1], r)
    ensures TipAfter(prev, events[..n + 1]) == events[n].hash
  {
    forall j | 0 <= j < n + 1
      ensures events[..n + 1][j].prevHash == TipAfter(prev, events[..n + 1][..j]) && Verifies(events[j], r)
    {
      assert events[..n + 1][..j] == events[..n][..j] == events[..j];
    }
  }

  // ----- The whole history -----

  /** Every event of the segments, archives first. */
  function History(segs: seq<Segment>): seq<Event> {
    if segs == [] then [] else History(segs[..|segs| - 1]) + FileOf(segs[|segs| - 1]).events
  }

  /** load: the events of the segments in order, or a failure to read one of them. */
  method Load(log: Log) returns (out: Option<seq<Event>>)
    ensures out.Some? <==> AllOpen(Segments(log))
    ensures out.Some? ==> out.value == History(Segments(log))
  {
    var segs := Segments(log);
    var events: seq<Event> := [];
    for k := 0 to |segs|
      invariant forall i | 0 <= i < k :: Open(segs[i])
      invariant events == History(segs[..k])
    {
      if segs[k].stored.Unreadable? || !StartValid(segs[k].stored.file) { return None; }
      assert segs[..k + 1][..k] == segs[..k];
      events := events + FileOf(segs[k]).events;
    }
    assert segs[..|segs|] == segs;
    out := Some(events);
  }

  /** verifyEventsInOrder: the verifier of a log in one file. */
  method VerifyEventsInOrder(events: seq<Event>, r: Resolver) returns (ok: bool)
    ensures ok <==> Chained(Genesis, events, r)
  {
    var expectedPrev := Genesis;
    for i := 0 to |events|
      invariant Chained(Genesis, events[..i], r)
      invariant expectedPrev == TipAfter(Genesis, events[..i])
    {
      if events[i].prevHash != expectedPrev || !Verifies(events[i], r) { return false; }
      ChainedExtends(Genesis, events, i, r);
      expectedPrev := events[i].hash;
    }
    assert events[..|events|] == events;
    ok := true;
  }
}
