/** What the verifier reports of an accepted log is true of its history, of the closing records, and of
    the log that is left when the oldest archives are moved away. */
module AuditReports {
  import opened Options
  import opened AuditLog
  import opened AuditLogTheorems
  import opened AuditLogTip

  /** The files present hold one stretch of the log's indices, each after the ones before it. */
  lemma {:induction false} StretchHeld(segs: seq<Segment>, r: Resolver, k: nat)
    requires AllFit(segs, r) && k < |segs|
    ensures First(FileOf(segs[k])) == First(FileOf(segs[0])) + |History(segs[..k])|
  {
    if k == 0 {
      assert segs[..0] == [];
    } else {
      StretchHeld(segs, r, k - 1);
      HistoryNext(segs, k - 1);
      assert SegmentFits(segs, k, r);
    }
  }

  /** The k-th file's report, of a log accepted from genesis or after any tip: it holds the indices it
      says, its tip is the hash the events of the log have at the last of them, and it is reported as
      live, without a name, a hash or a length, exactly when it is the last. */
  lemma ReportTrue(log: Log, r: Resolver, fromTip: Option<Hash>, k: nat)
    requires LogFits(log, r, fromTip) && Listed(log) && k < |Segments(log)|
    ensures var h := History(Segments(log));
            var report := ReportOf(Segments(log)[k]);
            var i := report.first - First(FileOf(Segments(log)[0]));
            && 0 <= i && i + report.events <= |h|
            && h[i..i + report.events] == FileOf(Segments(log)[k]).events
            && report.tip == (if report.events == 0 then None else Some(h[i + report.events - 1].hash))
            && (report.live <==> k == |log.archives|)
            && (report.live <==> report.name.None?) && (report.live <==> report.sha.None?)
            && (report.live ==> report.bytes == 0)
  {
    var segs := Segments(log);
    var f, p := FileOf(segs[k]), |History(segs[..k])|;
    StretchHeld(segs, r, k);
    HistoryAt(segs, k);
    if f.events != [] {
      assert History(segs)[p..p + |f.events|][|f.events| - 1] == History(segs)[p + |f.events| - 1];
    }
  }

  /** An archive is reported with the name, indices, tip, hash and length its closing record gives it. */
  lemma ReportAsRecorded(log: Log, r: Resolver, fromTip: Option<Hash>, k: nat)
    requires LogFits(log, r, fromTip) && NamedArchives(log) && k < |log.archives|
    requires FileOf(Segments(log)[k + 1]).events != []
    ensures var payload := FileOf(Segments(log)[k + 1]).events[0].content.payload;
            var report := ReportOf(log.archives[k]);
            && payload.Closing?
            && report.name == Some(payload.record.segment)
            && (report.first, report.first + report.events - 1) == (payload.record.first, payload.record.last)
            && report.tip == Some(payload.record.tip)
            && report.sha == Some(payload.record.sha) && report.bytes == payload.record.bytes
  {
    ArchiveIsRecorded(log, r, fromTip, k);
    ArchiveHolds(log, r, fromTip, k);
  }

  lemma ArchiveHolds(log: Log, r: Resolver, fromTip: Option<Hash>, k: nat)
    requires LogFits(log, r, fromTip) && NamedArchives(log) && k < |log.archives|
    ensures FileOf(log.archives[k]).events != [] && EndIndex(FileOf(log.archives[k])) > 0
  {
    assert Segments(log)[k] == log.archives[k];
    assert Open(Segments(log)[k]) && SegmentFits(Segments(log), k, r);
  }

  /** When the d oldest archives are moved away, what is left verifies under exactly one word of the
      operator's: the tip reported for the last of them. It is what the verifier then reports that the
      log starts after, and what it asks for when it is given nothing or anything else. */
  lemma ReportedTipContinues(log: Log, r: Resolver, fromTip: Option<Hash>, d: nat, word: Option<Hash>)
    requires LogFits(log, r, fromTip) && NamedArchives(log) && 0 < d <= |log.archives|
    ensures var (rest, tip) := (WithoutOldest(log, d), ReportOf(log.archives[d - 1]).tip);
            && tip.Some?
            && (LogFits(rest, r, word) <==> word == tip)
            && (Vouched(Segments(rest)[0], word) <==> word == tip)
            && StartsAfter(FileOf(Segments(rest)[0])) == tip
  {
    var segs := Segments(log);
    assert SegmentFits(segs, d, r) && segs[d - 1] == log.archives[d - 1];
    assert Segments(WithoutOldest(log, d))[0] == segs[d];
    ArchiveHolds(log, r, fromTip, d - 1);
    MovedAwayVerifies(log, r, fromTip, d);
  }

  /** A log whose history before it is not here: the oldest file past index 0 opens with the record of a
      closing, and that record names the very tip the operator vouched for. */
  lemma OldestRecordsItsTip(log: Log, r: Resolver, fromTip: Option<Hash>)
    requires LogFits(log, r, fromTip) && StartsAfter(FileOf(Segments(log)[0])).Some?
    ensures var f := FileOf(Segments(log)[0]);
            && First(f) > 0 && fromTip == StartsAfter(f)
            && (f.events != [] ==>
                  && f.events[0].content.kind.SegmentClosed?
                  && f.events[0].content.payload.Closing? && f.events[0].content.payload.record.schemaOk
                  && fromTip == Some(f.events[0].content.payload.record.tip))
  {
    var f := FileOf(Segments(log)[0]);
    assert Open(Segments(log)[0]) && SegmentFits(Segments(log), 0, r);
    assert f.events[..0] == [];
  }
}
