/** What it means that a log verifies: it is one flat chain, cut at its closing records. */
module AuditLogTheorems {
  import opened Options
  import opened AuditLog

  // ----- Chains -----

  lemma {:induction false} ChainedConcat(prev: Hash, a: seq<Event>, b: seq<Event>, r: Resolver)
    ensures Chained(prev, a + b, r) <==> Chained(prev, a, r) && Chained(TipAfter(prev, a), b, r)
    ensures TipAfter(prev, a + b) == TipAfter(TipAfter(prev, a), b)
  {
    forall j | 0 <= j < |a| ensures (a + b)[..j] == a[..j] && (a + b)[j] == a[j] {}
    forall j | 0 <= j < |b|
      ensures TipAfter(prev, (a + b)[..|a| + j]) == TipAfter(TipAfter(prev, a), b[..j]) && (a + b)[|a| + j] == b[j]
    {
      assert (a + b)[..|a| + j] == a + b[..j];
    }
    if Chained(prev, a + b, r) {
      forall j | 0 <= j < |a| ensures a[j].prevHash == TipAfter(prev, a[..j]) && Verifies(a[j], r) {
        assert (a + b)[j] == a[j];
      }
      forall j | 0 <= j < |b| ensures b[j].prevHash == TipAfter(TipAfter(prev, a), b[..j]) && Verifies(b[j], r) {
        assert (a + b)[|a| + j] == b[j];
      }
    }
    if Chained(prev, a, r) && Chained(TipAfter(prev, a), b, r) {
      forall j | 0 <= j < |a + b|
        ensures (a + b)[j].prevHash == TipAfter(prev, (a + b)[..j]) && Verifies((a + b)[j], r) {
        if j >= |a| { assert (a + b)[|a| + (j - |a|)] == b[j - |a|]; }
      }
    }
  }

  lemma ChainedPrefix(prev: Hash, events: seq<Event>, n: nat, r: Resolver)
    requires n <= |events| && Chained(prev, events, r)
    ensures Chained(prev, events[..n], r)
  {
    assert events == events[..n] + events[n..];
    ChainedConcat(prev, events[..n], events[n..], r);
  }

  /** How many events a hash follows. */
  function Depth(h: Hash): nat { if h.Genesis? then 0 else 1 + Depth(h.prev) }

  lemma {:induction false} ChainDepth(prev: Hash, events: seq<Event>, r: Resolver)
    requires Chained(prev, events, r)
    ensures Depth(TipAfter(prev, events)) == Depth(prev) + |events|
  {
    if events != [] {
      var n := |events| - 1;
      ChainedPrefix(prev, events, n, r);
      ChainDepth(prev, events[..n], r);
      assert events[n].prevHash == TipAfter(prev, events[..n]);
    }
  }

  /** Two events that say the same: all but the signature's randomness. */
  predicate Same(e: Event, e': Event) { (e.prevHash, e.content, e.hash) == (e'.prevHash, e'.content, e'.hash) }

  predicate SameEvents(a: seq<Event>, b: seq<Event>) {
    |a| == |b| && forall i | 0 <= i < |a| :: Same(a[i], b[i])
  }

  /** Two chains from genesis with the same tip hold the same events. */
  lemma {:induction false} TipBindsChain(a: seq<Event>, b: seq<Event>, r: Resolver, r': Resolver)
    requires Chained(Genesis, a, r) && Chained(Genesis, b, r')
    requires TipAfter(Genesis, a) == TipAfter(Genesis, b)
    ensures SameEvents(a, b)
  {
    ChainDepth(Genesis, a, r);
    ChainDepth(Genesis, b, r');
    if a != [] {
      var n := |a| - 1;
      TipBindsChain(a[..n], b[..n], r, r');
      SameToo(a, b);
    }
  }

  lemma SameToo(a: seq<Event>, b: seq<Event>)
    requires |a| == |b| > 0 && Same(a[|a| - 1], b[|a| - 1]) && SameEvents(a[..|a| - 1], b[..|a| - 1])
    ensures SameEvents(a, b)
  {
    var n := |a| - 1;
    forall i | 0 <= i < |a| ensures Same(a[i], b[i]) {
      if i < n { assert a[i] == a[..n][i] && b[i] == b[..n][i]; }
    }
  }

  // ----- The segmented verifier refines the flat one -----

  predicate FromGenesis(segs: seq<Segment>)
  {
    segs == [] || (First(FileOf(segs[0])) == 0 && Prev(FileOf(segs[0])) == Genesis)
  }

  /** The k-th segment starts, by its own word, where the history before it ends. */
  ghost predicate StartsRight(segs: seq<Segment>, k: nat)
    requires k < |segs|
  {
    var past := History(segs[..k]);
    First(FileOf(segs[k])) == |past| && Prev(FileOf(segs[k])) == TipAfter(Genesis, past)
  }

  ghost predicate CutRight(segs: seq<Segment>, k: nat)
    requires k < |segs|
  {
    var f := FileOf(segs[k]);
    StartsRight(segs, k) && ClosingOnlyFirst(f.events) && OpensRight(f, Before(segs, k)) && NamedRight(segs[k], f)
  }

  lemma HistoryEnd(segs: seq<Segment>)
    requires segs != [] && StartsRight(segs, |segs| - 1)
    ensures EndIndex(FileOf(segs[|segs| - 1])) == |History(segs)|
    ensures EndTip(FileOf(segs[|segs| - 1])) == TipAfter(Genesis, History(segs))
  {
  }

  ghost predicate AllCut(segs: seq<Segment>) { forall k: nat | k < |segs| :: CutRight(segs, k) }

  lemma FitByPrefix(segs: seq<Segment>, r: Resolver)
    requires segs != []
    ensures var n := |segs| - 1;
            AllFit(segs, r) <==> AllFit(segs[..n], r) && Open(segs[n]) && SegmentFits(segs, n, r)
  {
    var n := |segs| - 1;
    var init := segs[..n];
    forall k: nat | k < n ensures SegmentFits(segs, k, r) <==> SegmentFits(init, k, r) {
      assert init[k] == segs[k];
      if k > 0 { assert init[k - 1] == segs[k - 1]; }
    }
    forall k | 0 <= k < n ensures Open(segs[k]) <==> Open(init[k]) {}
  }

  lemma CutByPrefix(segs: seq<Segment>)
    requires segs != []
    ensures var n := |segs| - 1;
            AllCut(segs) <==> AllCut(segs[..n]) && CutRight(segs, n)
  {
    var n := |segs| - 1;
    var init := segs[..n];
    forall k: nat | k < n ensures CutRight(segs, k) <==> CutRight(init, k) {
      assert segs[..k] == init[..k] && init[k] == segs[k];
      if k > 0 { assert init[k - 1] == segs[k - 1]; }
    }
  }

  /** A log verifies from genesis exactly when it is one flat chain, every file starting where the
      ones before it end, with a closing record at every cut and nowhere else. */
  lemma {:induction false} SegmentedIsFlat(segs: seq<Segment>, r: Resolver)
    requires AllOpen(segs)
    ensures AllFit(segs, r) && FromGenesis(segs) <==> Chained(Genesis, History(segs), r) && AllCut(segs)
  {
    if segs != [] {
      var n := |segs| - 1;
      var init, f := segs[..n], FileOf(segs[n]);
      SegmentedIsFlat(init, r);
      FitByPrefix(segs, r);
      CutByPrefix(segs);
      ChainedConcat(Genesis, History(init), f.events, r);
      if n == 0 {
        assert init == [] && History(init) == [];
      } else {
        assert init[0] == segs[0] && init[n - 1] == segs[n - 1];
        if AllCut(init) {
          assert CutRight(init, n - 1);
          HistoryEnd(init);
        }
      }
    }
  }

  /** An accepted log passes the flat verifier, and its count and tip are the flat chain's. */
  lemma AcceptedIsFlat(log: Log, r: Resolver)
    requires LogFits(log, r, None)
    ensures Chained(Genesis, History(Segments(log)), r)
    ensures LogCount(log) == |History(Segments(log))|
    ensures LogTip(log) == TipAfter(Genesis, History(Segments(log)))
    ensures AllCut(Segments(log)) && Segments(log) != []
  {
    var segs := Segments(log);
    SegmentedIsFlat(segs, r);
    assert CutRight(segs, |segs| - 1);
    HistoryEnd(segs);
  }

  /** The reports of an accepted log partition its indices: each segment's events are the ones the
      history has at its reported indices, and each ends where the next starts, the last at the count. */
  lemma ReportsPartition(log: Log, r: Resolver, k: nat)
    requires LogFits(log, r, None) && k < |Segments(log)|
    ensures LogCount(log) == |History(Segments(log))|
    ensures var segs := Segments(log);
            var report := ReportOf(segs[k]);
            && HeldAt(History(segs), report.first, FileOf(segs[k]).events)
            && report.events == |FileOf(segs[k]).events|
            && report.first + report.events == (if k + 1 < |segs| then ReportOf(segs[k + 1]).first else LogCount(log))
            && (k == 0 ==> report.first == 0)
  {
    AcceptedIsFlat(log, r);
    CutAt(Segments(log), k);
  }

  /** h holds exactly events from index i on. */
  predicate HeldAt(h: seq<Event>, i: int, events: seq<Event>) {
    0 <= i && i + |events| <= |h| && h[i..i + |events|] == events
  }

  lemma CutAt(segs: seq<Segment>, k: nat)
    requires AllCut(segs) && k < |segs|
    ensures HeldAt(History(segs), First(FileOf(segs[k])), FileOf(segs[k]).events)
    ensures EndIndex(FileOf(segs[k])) == (if k + 1 < |segs| then First(FileOf(segs[k + 1])) else |History(segs)|)
    ensures k == 0 ==> First(FileOf(segs[k])) == 0
  {
    StartsOf(segs, k);
    if k + 1 < |segs| { StartsOf(segs, k + 1); }
    HeldFrom(segs, k);
  }

  lemma StartsOf(segs: seq<Segment>, k: nat)
    requires AllCut(segs) && k < |segs|
    ensures StartsRight(segs, k)
  {
    assert CutRight(segs, k);
  }

  lemma HeldFrom(segs: seq<Segment>, k: nat)
    requires k < |segs| && StartsRight(segs, k) && (k + 1 < |segs| ==> StartsRight(segs, k + 1))
    ensures HeldAt(History(segs), First(FileOf(segs[k])), FileOf(segs[k]).events)
    ensures EndIndex(FileOf(segs[k])) == (if k + 1 < |segs| then First(FileOf(segs[k + 1])) else |History(segs)|)
    ensures k == 0 ==> First(FileOf(segs[k])) == 0
  {
    HistoryAt(segs, k);
    HistoryNext(segs, k);
    assert segs[..|segs|] == segs;
  }

  lemma HistoryNext(segs: seq<Segment>, k: nat)
    requires k < |segs|
    ensures History(segs[..k + 1]) == History(segs[..k]) + FileOf(segs[k]).events
  {
    assert segs[..k + 1][..k] == segs[..k];
  }

  lemma {:induction false} HistoryAt(segs: seq<Segment>, k: nat)
    requires k < |segs|
    ensures var p := |History(segs[..k])|;
            p + |FileOf(segs[k]).events| <= |History(segs)|
            && History(segs)[p..p + |FileOf(segs[k]).events|] == FileOf(segs[k]).events
  {
    var n := |segs| - 1;
    var h, events := History(segs[..n]), FileOf(segs[k]).events;
    assert History(segs) == h + FileOf(segs[n]).events;
    if k < n {
      HistoryAt(segs[..n], k);
      assert segs[..n][..k] == segs[..k] && segs[..n][k] == segs[k];
      var p := |History(segs[..k])|;
      assert (h + FileOf(segs[n]).events)[p..p + |events|] == h[p..p + |events|];
    } else {
      assert segs[..n] == segs[..k];
    }
  }

  // ----- The closing records -----

  /** A listing names only archives that hold at least one event. */
  predicate NamedArchives(log: Log) {
    forall k | 0 <= k < |log.archives| ::
      log.archives[k].archive.Some? && log.archives[k].archive.value.first <= log.archives[k].archive.value.last
  }

  /** An archive followed by a segment with an event is, to the byte, the one that event records. */
  lemma ArchiveIsRecorded(log: Log, r: Resolver, fromTip: Option<Hash>, k: nat)
    requires LogFits(log, r, fromTip) && NamedArchives(log) && k < |log.archives|
    requires FileOf(Segments(log)[k + 1]).events != []
    ensures var f := FileOf(log.archives[k]);
            var e := FileOf(Segments(log)[k + 1]).events[0];
            && e.content.kind.SegmentClosed?
            && e.content.payload ==
               Closing(ClosedSegment(true, log.archives[k].archive.value.name, First(f), EndIndex(f) - 1,
                                                          EndTip(f), FileSha(f), f.image.size))
  {
    var segs := Segments(log);
    assert Open(segs[k]) && SegmentFits(segs, k, r) && SegmentFits(segs, k + 1, r);
    var f' := FileOf(segs[k + 1]);
    assert f'.events[0].prevHash == TipAfter(Prev(f'), f'.events[..0]);
    assert SeenAs(segs[k]) == Before(segs, k + 1);
  }
}
