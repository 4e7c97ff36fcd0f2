/** What the tip of a log that verifies is worth: it binds every event and every archive, a tail can
    be cut but not unnoticed, and the oldest archives can be moved away. */
module AuditLogTip {
  import opened Options
  import opened AuditLog
  import opened AuditLogTheorems

  // ----- The tip binds the history -----

  /** Two events that are the same but for the randomness of their signatures. */
  predicate OnlySaltDiffers(e: Event, e': Event) {
    e == e'.(signature := e'.signature.(salt := e.signature.salt))
  }

  lemma VerifiedAlike(e: Event, e': Event, r: Resolver)
    requires Verifies(e, r) && Verifies(e', r) && Same(e, e')
    ensures OnlySaltDiffers(e, e')
  {
  }

  /** Two logs accepted from genesis with the same tip hold the same events, down to the signatures'
      randomness. */
  lemma TipBindsHistory(a: Log, b: Log, r: Resolver)
    requires LogFits(a, r, None) && LogFits(b, r, None) && LogTip(a) == LogTip(b)
    ensures SameEvents(History(Segments(a)), History(Segments(b)))
    ensures forall i | 0 <= i < |History(Segments(a))| ::
              OnlySaltDiffers(History(Segments(a))[i], History(Segments(b))[i])
    ensures LogCount(a) == LogCount(b)
  {
    AcceptedIsFlat(a, r);
    AcceptedIsFlat(b, r);
    var ha, hb := History(Segments(a)), History(Segments(b));
    TipBindsChain(ha, hb, r, r);
    forall i | 0 <= i < |ha| ensures OnlySaltDiffers(ha[i], hb[i]) { VerifiedAlike(ha[i], hb[i], r); }
  }

  /** How an accepted log's files lie in its history h. */
  ghost predicate Laid(segs: seq<Segment>, h: seq<Event>) {
    && segs != []
    && (forall k: nat | k < |segs| :: LaidAt(segs, h, k))
  }

  /** The k-th file starts where the one before it ends, holds its stretch of the history, and past
      index 0 the history records a closing exactly where the file starts. */
  ghost predicate LaidAt(segs: seq<Segment>, h: seq<Event>, k: nat)
    requires k < |segs|
  {
    var f := FileOf(segs[k]);
    && HeldAt(h, First(f), f.events)
    && EndIndex(f) == (if k + 1 < |segs| then First(FileOf(segs[k + 1])) else |h|)
    && (k == 0 ==> First(f) == 0)
    && (k + 1 < |segs| ==> f.events != [])
    && (forall i | First(f) <= i < EndIndex(f) && i > 0 :: h[i].content.kind.SegmentClosed? <==> i == First(f))
  }

  lemma AcceptedIsLaid(log: Log, r: Resolver)
    requires LogFits(log, r, None) && NamedArchives(log)
    ensures Laid(Segments(log), History(Segments(log)))
  {
    var segs := Segments(log);
    AcceptedIsFlat(log, r);
    forall k: nat | k < |segs| ensures LaidAt(segs, History(segs), k) {
      if k < |log.archives| {
        ArchiveNamed(log, r, k);
        assert log.archives[k] == segs[k];
      }
      LaidFromCut(segs, k);
    }
  }

  lemma LaidFromCut(segs: seq<Segment>, k: nat)
    requires AllCut(segs) && k < |segs| && (k + 1 < |segs| ==> FileOf(segs[k]).events != [])
    ensures LaidAt(segs, History(segs), k)
  {
    CutAt(segs, k);
    OpensWithClosing(segs, k);
    ClosingsHeld(History(segs), FileOf(segs[k]));
  }

  lemma OpensWithClosing(segs: seq<Segment>, k: nat)
    requires AllCut(segs) && k < |segs|
    ensures var f := FileOf(segs[k]);
            ClosingOnlyFirst(f.events) && (First(f) > 0 && f.events != [] ==> f.events[0].content.kind.SegmentClosed?)
  {
    assert CutRight(segs, k);
  }

  lemma ClosingsHeld(h: seq<Event>, f: File)
    requires HeldAt(h, First(f), f.events) && ClosingOnlyFirst(f.events)
    requires First(f) > 0 && f.events != [] ==> f.events[0].content.kind.SegmentClosed?
    ensures forall i | First(f) <= i < EndIndex(f) && i > 0 :: h[i].content.kind.SegmentClosed? <==> i == First(f)
  {
    forall i | First(f) <= i < EndIndex(f) && i > 0
      ensures h[i].content.kind.SegmentClosed? <==> i == First(f)
    {
      assert h[i] == h[First(f)..First(f) + |f.events|][i - First(f)];
    }
  }

  lemma HeldFirst(h: seq<Event>, i: int, events: seq<Event>)
    requires HeldAt(h, i, events) && events != []
    ensures h[i] == events[0]
  {
    assert h[i] == h[i..i + |events|][0];
  }

  /** Two histories that say the same are cut at the same places. */
  lemma SameCut(sa: seq<Segment>, ha: seq<Event>, sb: seq<Segment>, hb: seq<Event>, k: nat)
    requires Laid(sa, ha) && Laid(sb, hb) && SameEvents(ha, hb)
    requires k + 1 < |sa| && FileOf(sa[k + 1]).events != []
    requires k < |sb| && First(FileOf(sb[k])) == First(FileOf(sa[k]))
    ensures k + 1 < |sb| && EndIndex(FileOf(sb[k])) == EndIndex(FileOf(sa[k]))
    ensures FileOf(sb[k + 1]).events != []
  {
    var fa, fb := FileOf(sa[k]), FileOf(sb[k]);
    assert LaidAt(sa, ha, k) && LaidAt(sa, ha, k + 1) && LaidAt(sb, hb, k);
    var qa, qb := EndIndex(fa), EndIndex(fb);
    assert Same(ha[qa], hb[qa]) && ha[qa].content.kind.SegmentClosed?;
    assert qb <= qa;
    assert k + 1 < |sb|;
    assert LaidAt(sb, hb, k + 1);
    assert FileOf(sb[k + 1]).events != [];
    assert qb < qa ==> Same(ha[qb], hb[qb]);
  }

  /** ... and the same archives: every archive whose closing is on the record of one of two logs
      with the same tip is, name, indices and bytes, an archive of the other. */
  lemma TipBindsArchives(a: Log, b: Log, r: Resolver, k: nat)
    requires LogFits(a, r, None) && LogFits(b, r, None) && LogTip(a) == LogTip(b)
    requires NamedArchives(a) && NamedArchives(b)
    requires k < |a.archives| && FileOf(Segments(a)[k + 1]).events != []
    ensures k < |b.archives| && a.archives[k] == b.archives[k]
  {
    AcceptedIsLaid(a, r);
    AcceptedIsLaid(b, r);
    TipBindsHistory(a, b, r);
    SameUpTo(a, b, r, k);
  }

  lemma {:induction false} SameUpTo(a: Log, b: Log, r: Resolver, k: nat)
    requires LogFits(a, r, None) && LogFits(b, r, None) && NamedArchives(a) && NamedArchives(b)
    requires Laid(Segments(a), History(Segments(a))) && Laid(Segments(b), History(Segments(b)))
    requires SameEvents(History(Segments(a)), History(Segments(b)))
    requires k < |a.archives| && FileOf(Segments(a)[k + 1]).events != []
    ensures k < |b.archives| && a.archives[k] == b.archives[k]
    ensures FileOf(Segments(b)[k + 1]).events != []
  {
    var sa, sb := Segments(a), Segments(b);
    var ha, hb := History(sa), History(sb);
    assert LaidAt(sa, ha, k) && LaidAt(sb, hb, 0) && LaidAt(sa, ha, k + 1);
    if k > 0 {
      SameUpTo(a, b, r, k - 1);
      assert LaidAt(sa, ha, k - 1) && LaidAt(sb, hb, k - 1);
      assert sa[k - 1] == a.archives[k - 1] && sb[k - 1] == b.archives[k - 1];
    }
    SameCut(sa, ha, sb, hb, k);
    assert LaidAt(sb, hb, k + 1);
    var q := EndIndex(FileOf(sa[k]));
    assert LaidAt(sb, hb, k);
    assert First(FileOf(sb[k + 1])) == q;
    assert Same(ha[q], hb[q]);
    HeldFirst(ha, q, FileOf(sa[k + 1]).events);
    HeldFirst(hb, q, FileOf(sb[k + 1]).events);
    SameRecordSameArchive(a, b, r, k);
  }

  lemma SameRecordSameArchive(a: Log, b: Log, r: Resolver, k: nat)
    requires LogFits(a, r, None) && LogFits(b, r, None) && NamedArchives(a) && NamedArchives(b)
    requires k < |a.archives| && k < |b.archives|
    requires FileOf(Segments(a)[k + 1]).events != [] && FileOf(Segments(b)[k + 1]).events != []
    requires Same(FileOf(Segments(a)[k + 1]).events[0], FileOf(Segments(b)[k + 1]).events[0])
    ensures a.archives[k] == b.archives[k]
  {
    ArchiveIsRecorded(a, r, None, k);
    ArchiveIsRecorded(b, r, None, k);
    ArchiveNamed(a, r, k);
    ArchiveNamed(b, r, k);
  }

  lemma ArchiveNamed(log: Log, r: Resolver, k: nat)
    requires LogFits(log, r, None) && NamedArchives(log) && k < |log.archives|
    ensures Open(log.archives[k]) && NamedRight(log.archives[k], FileOf(log.archives[k]))
  {
    assert log.archives[k] == Segments(log)[k];
    assert SegmentFits(Segments(log), k, r);
  }

  // ----- Cutting the tail, moving archives away -----

  /** The log with only the first n events of its live file left. */
  function CutTail(log: Log, n: nat): Log
    requires log.live.Readable? && n <= |log.live.file.events|
  {
    log.(live := Readable(log.live.file.(events := log.live.file.events[..n])))
  }

  /** A log whose live tail was cut still verifies, and its tip tells. */
  lemma CutTailVerifies(log: Log, r: Resolver, fromTip: Option<Hash>, n: nat)
    requires LogFits(log, r, fromTip) && n < |FileOf(Segment(None, log.live)).events|
    ensures log.live.Readable? && LogFits(CutTail(log, n), r, fromTip)
    ensures LogTip(CutTail(log, n)) != LogTip(log)
  {
    var segs, cut := Segments(log), Segments(CutTail(log, n));
    var last := |segs| - 1;
    var f, f' := FileOf(segs[last]), FileOf(cut[last]);
    assert SegmentFits(segs, last, r);
    ChainedPrefix(Prev(f), f.events, n, r);
    forall k | 0 <= k < |cut| ensures Open(cut[k]) { assert Open(segs[k]); }
    forall k: nat | k < |cut| ensures SegmentFits(cut, k, r) {
      assert SegmentFits(segs, k, r);
      if k > 0 { assert cut[k - 1] == segs[k - 1]; }
      if k < last { assert cut[k] == segs[k]; }
    }
    ChainDepth(Prev(f), f.events, r);
    ChainDepth(Prev(f), f'.events, r);
  }

  /** The log without its d oldest archives. */
  function WithoutOldest(log: Log, d: nat): Log
    requires d <= |log.archives|
  {
    log.(archives := log.archives[d..])
  }

  /** Moving the oldest archives away is sound: what is left verifies under the tip at the cut, with
      the same count and tip. */
  lemma MovedAwayVerifies(log: Log, r: Resolver, fromTip: Option<Hash>, d: nat)
    requires LogFits(log, r, fromTip) && d <= |log.archives|
    ensures var rest := WithoutOldest(log, d);
            && LogFits(rest, r, Some(Prev(FileOf(Segments(log)[d]))))
            && LogCount(rest) == LogCount(log) && LogTip(rest) == LogTip(log)
  {
    var segs, rest := Segments(log), Segments(WithoutOldest(log, d));
    assert rest == segs[d..];
    forall k | 0 <= k < |rest| ensures Open(rest[k]) { assert Open(segs[d + k]); }
    forall k: nat | k < |rest| ensures SegmentFits(rest, k, r) {
      assert SegmentFits(segs, d + k, r);
      if k > 0 { assert rest[k - 1] == segs[d + k - 1]; }
    }
  }

  /** ... and exactly sound: the whole verifies if and only if the archives moved away verify where
      they are, the rest verifies under the tip at the cut, and the seam between them fits. */
  lemma VerifiesInParts(log: Log, r: Resolver, fromTip: Option<Hash>, d: nat)
    requires 0 < d <= |log.archives|
    ensures LogFits(log, r, fromTip) <==>
            && AllFit(log.archives[..d], r) && Vouched(log.archives[0], fromTip)
            && SegmentFits(Segments(log), d, r)
            && LogFits(WithoutOldest(log, d), r, Some(Prev(FileOf(Segments(log)[d]))))
  {
    var segs, rest, moved := Segments(log), Segments(WithoutOldest(log, d)), log.archives[..d];
    assert rest == segs[d..] && moved == segs[..d] && segs[0] == log.archives[0];
    forall k: nat | k < d ensures SegmentFits(segs, k, r) <==> SegmentFits(moved, k, r) {
      assert segs[k] == moved[k];
      if k > 0 { assert segs[k - 1] == moved[k - 1]; }
    }
    forall k: nat | d < k < |segs| ensures SegmentFits(segs, k, r) <==> SegmentFits(rest, k - d, r) {
      assert segs[k] == rest[k - d] && segs[k - 1] == rest[k - d - 1];
    }
    if LogFits(log, r, fromTip) {
      MovedAwayVerifies(log, r, fromTip, d);
      assert forall k | 0 <= k < d :: Open(segs[k]);
    }
    if AllFit(moved, r) && Vouched(log.archives[0], fromTip) && SegmentFits(segs, d, r)
              && LogFits(WithoutOldest(log, d), r, Some(Prev(FileOf(segs[d])))) {
      PartsOpen(segs, d);
      forall k: nat | k < |segs| ensures SegmentFits(segs, k, r) {
        if k > d { assert SegmentFits(rest, k - d, r); }
      }
    }
  }

  lemma PartsOpen(segs: seq<Segment>, d: nat)
    requires d <= |segs| && AllOpen(segs[..d]) && AllOpen(segs[d..])
    ensures AllOpen(segs)
  {
    forall k | 0 <= k < |segs| ensures Open(segs[k]) {
      if k < d { assert Open(segs[..d][k]); } else { assert Open(segs[d..][k - d]); }
    }
  }
}
