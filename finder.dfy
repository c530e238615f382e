/** The word finder of finder.go: the crawl scope, the aggregator that merges
    page results (addLinkData), the controller loop that schedules new links and
    counts pending work (run), and the final ranking (getResults).

    The pipeline is modelled sequentially. A task that the controller manages to
    enqueue is handed at once to a worker, which fetches the page (the `fetch`
    parameter stands for SearchRecord.processLink) and passes its results to
    AddLinkData; AddLinkData appends the page's links to `filter`, the FIFO of
    link batches that the controller drains. */
module Finder {
  import opened Wrappers
  import opened Sequences
  import opened Histogram
  import opened Ranking

  /** The record of one processed page; `err` is None when the page had no error. */
  datatype SearchRecord = SearchRecord(url: string, err: Option<string>)

  /** What processing one link yields: its record, its word histogram and the
      links found on it. */
  datatype Page = Page(rec: SearchRecord, words: Counts, links: seq<string>)

  /** What the controller did with one consumed link batch `batch`: whether it
      skipped it because of an earlier interrupt, the links it enqueued, the
      visited set afterwards and the interrupt flag afterwards. */
  datatype BatchStep = BatchStep(batch: seq<string>, skipped: bool, enqueued: seq<string>,
                                 visitedAfter: set<string>, interruptAfter: bool)

  /** strings.HasPrefix. */
  predicate HasPrefix(s: string, prefix: string) {
    |prefix| <= |s| && s[..|prefix|] == prefix
  }

  /** The crawl target of newWordFinder: the start URL's hostname with one
      leading "www." removed. */
  function CrawlTarget(hostname: string): (target: string)
    ensures HasPrefix(hostname, "www.") ==> "www." + target == hostname
    ensures !HasPrefix(hostname, "www.") ==> target == hostname
  {
    if HasPrefix(hostname, "www.") then hostname[4..] else hostname
  }

  /** Exactly one "www." is removed, whatever follows it. */
  lemma CrawlTargetStripsOnce(host: string)
    ensures CrawlTarget("www." + host) == host
  {
    assert ("www." + host)[..4] == "www.";
  }

  /** The records of `recs` that carry an error, in order. */
  function ErrorLog(recs: seq<SearchRecord>): (log: seq<SearchRecord>)
    ensures forall i :: 0 <= i < |log| ==> log[i].err.Some? && log[i] in recs
    ensures |log| <= |recs|
  {
    if recs == [] then []
    else
      var last := recs[|recs| - 1];
      ErrorLog(recs[..|recs| - 1]) + (if last.err.Some? then [last] else [])
  }

  /** Every record that carries an error is logged, and nothing else is. */
  lemma {:induction false} ErrorLogMembers(recs: seq<SearchRecord>)
    ensures forall r :: r in ErrorLog(recs) <==> r in recs && r.err.Some?
    decreases |recs|
  {
    if recs != [] {
      var init, last := recs[..|recs| - 1], recs[|recs| - 1];
      ErrorLogMembers(init);
      assert recs == init + [last];
    }
  }

  lemma ErrorLogOne(r: SearchRecord)
    ensures ErrorLog([r]) == if r.err.Some? then [r] else []
  {
    assert [r][..0] == [];
  }

  lemma {:induction false} ErrorLogConcat(a: seq<SearchRecord>, b: seq<SearchRecord>)
    ensures ErrorLog(a + b) == ErrorLog(a) + ErrorLog(b)
    decreases |b|
  {
    if b == [] {
      assert a + b == a;
    } else {
      var init := b[..|b| - 1];
      assert (a + b)[..|a + b| - 1] == a + init;
      assert (a + b)[|a + b| - 1] == b[|b| - 1];
      ErrorLogConcat(a, init);
    }
  }

  /** The records, histograms and link batches of the pages at `urls`, in order. */
  function RecordsOf(fetch: string -> Page, urls: seq<string>): (r: seq<SearchRecord>)
    ensures |r| == |urls|
  {
    if urls == [] then [] else RecordsOf(fetch, urls[..|urls| - 1]) + [fetch(urls[|urls| - 1]).rec]
  }

  function WordsOf(fetch: string -> Page, urls: seq<string>): (r: seq<Counts>)
    ensures |r| == |urls|
  {
    if urls == [] then [] else WordsOf(fetch, urls[..|urls| - 1]) + [fetch(urls[|urls| - 1]).words]
  }

  function LinksOf(fetch: string -> Page, urls: seq<string>): (r: seq<seq<string>>)
    ensures |r| == |urls|
  {
    if urls == [] then [] else LinksOf(fetch, urls[..|urls| - 1]) + [fetch(urls[|urls| - 1]).links]
  }

  /** How many of the first `n` sends to the filter channel, those made for
      the pages numbered 0 to `n - 1`, would block. */
  function BlockedSends(wouldBlock: nat -> bool, n: nat): (r: nat)
    ensures r <= n
  {
    if n == 0 then 0 else BlockedSends(wouldBlock, n - 1) + (if wouldBlock(n - 1) then 1 else 0)
  }

  lemma BlockedSendsSnoc(wouldBlock: nat -> bool, n: nat)
    ensures BlockedSends(wouldBlock, n + 1) == BlockedSends(wouldBlock, n) + (if wouldBlock(n) then 1 else 0)
  {
  }

  /** What addLinkData accumulates: the histogram, the error log and the two
      RunStats counters. */
  datatype Totals = Totals(words: Counts, errRecs: seq<SearchRecord>, chanFree: nat, chanBlocked: nat)

  /** The totals after one addLinkData call for `page`, whose send to the
      filter channel would block when `blocked` holds. */
  function AfterPage(t: Totals, page: Page, blocked: bool): Totals {
    Totals(MergeCounts(t.words, page.words),
           if page.rec.err.Some? then t.errRecs + [page.rec] else t.errRecs,
           if blocked then t.chanFree else t.chanFree + 1,
           if blocked then t.chanBlocked + 1 else t.chanBlocked)
  }

  /** The totals after the pages at `pages`, numbered from 0 on, have been
      handed to addLinkData one after the other on top of `base`. */
  function Aggregate(base: Totals, fetch: string -> Page, wouldBlock: nat -> bool, pages: seq<string>): Totals
    decreases |pages|
  {
    if pages == [] then base
    else
      var n := |pages| - 1;
      AfterPage(Aggregate(base, fetch, wouldBlock, pages[..n]), fetch(pages[n]), wouldBlock(n))
  }

  /** Aggregating one more page is one more addLinkData call. */
  lemma AggregateSnoc(base: Totals, fetch: string -> Page, wouldBlock: nat -> bool,
                      pages: seq<string>, link: string)
    ensures Aggregate(base, fetch, wouldBlock, pages + [link])
         == AfterPage(Aggregate(base, fetch, wouldBlock, pages), fetch(link), wouldBlock(|pages|))
  {
    assert (pages + [link])[..|pages|] == pages;
  }

  /** The totals (B) of the pages `pages` and the totals (A) after one more
      addLinkData call for the page at `link`: A holds `pages + [link]`. */
  lemma AggregateNext(base: Totals, fetch: string -> Page, wouldBlock: nat -> bool,
                      pages: seq<string>, link: string, B: Totals, A: Totals)
    requires B == Aggregate(base, fetch, wouldBlock, pages)
    requires A == AfterPage(B, fetch(link), wouldBlock(|pages|))
    ensures A == Aggregate(base, fetch, wouldBlock, pages + [link])
  {
    AggregateSnoc(base, fetch, wouldBlock, pages, link);
  }

  /** The histogram of the aggregate: the page histograms merged into the
      base one in order. */
  lemma {:induction false} AggregateWords(base: Totals, fetch: string -> Page, wouldBlock: nat -> bool,
                                          pages: seq<string>)
    ensures Aggregate(base, fetch, wouldBlock, pages).words == MergeAll(base.words, WordsOf(fetch, pages))
    decreases |pages|
  {
    if pages != [] {
      var init, link := pages[..|pages| - 1], pages[|pages| - 1];
      AggregateWords(base, fetch, wouldBlock, init);
      assert pages == init + [link];
      AggregateOneMore(fetch, base.words, init, link);
    }
  }

  /** The error log of the aggregate: the records carrying an error, in order. */
  lemma {:induction false} AggregateErrors(base: Totals, fetch: string -> Page, wouldBlock: nat -> bool,
                                           pages: seq<string>)
    ensures Aggregate(base, fetch, wouldBlock, pages).errRecs == base.errRecs + ErrorLog(RecordsOf(fetch, pages))
    decreases |pages|
  {
    if pages == [] {
      assert base.errRecs + [] == base.errRecs;
    } else {
      var init, link := pages[..|pages| - 1], pages[|pages| - 1];
      AggregateErrors(base, fetch, wouldBlock, init);
      assert pages == init + [link];
      AggregateOneMore(fetch, base.words, init, link);
      ErrorLogOne(fetch(link).rec);
      ConcatAssoc(base.errRecs, ErrorLog(RecordsOf(fetch, init)), ErrorLog([fetch(link).rec]));
    }
  }

  /** The counters of the aggregate: of the `|pages|` sends to the filter
      channel, those that would block are counted in chanBlocked and the
      others in chanFree. */
  lemma {:induction false} AggregateCounters(base: Totals, fetch: string -> Page, wouldBlock: nat -> bool,
                                             pages: seq<string>)
    ensures Aggregate(base, fetch, wouldBlock, pages).chanBlocked
         == base.chanBlocked + BlockedSends(wouldBlock, |pages|)
    ensures Aggregate(base, fetch, wouldBlock, pages).chanFree
         == base.chanFree + (|pages| - BlockedSends(wouldBlock, |pages|))
    decreases |pages|
  {
    if pages != [] {
      var init := pages[..|pages| - 1];
      AggregateCounters(base, fetch, wouldBlock, init);
      BlockedSendsSnoc(wouldBlock, |init|);
    }
  }

  /** What the aggregate holds, component by component. */
  lemma AggregateMeans(base: Totals, fetch: string -> Page, wouldBlock: nat -> bool, pages: seq<string>)
    ensures Aggregate(base, fetch, wouldBlock, pages).words == MergeAll(base.words, WordsOf(fetch, pages))
    ensures Aggregate(base, fetch, wouldBlock, pages).errRecs == base.errRecs + ErrorLog(RecordsOf(fetch, pages))
    ensures Aggregate(base, fetch, wouldBlock, pages).chanBlocked
         == base.chanBlocked + BlockedSends(wouldBlock, |pages|)
    ensures Aggregate(base, fetch, wouldBlock, pages).chanFree
         == base.chanFree + (|pages| - BlockedSends(wouldBlock, |pages|))
  {
    AggregateWords(base, fetch, wouldBlock, pages);
    AggregateErrors(base, fetch, wouldBlock, pages);
    AggregateCounters(base, fetch, wouldBlock, pages);
  }

  /** The `i`-th batch of LinksOf is the link list of the `i`-th page. */
  lemma {:induction false} LinksOfAt(fetch: string -> Page, urls: seq<string>, i: nat)
    requires i < |urls|
    ensures LinksOf(fetch, urls)[i] == fetch(urls[i]).links
    decreases |urls|
  {
    if i < |urls| - 1 {
      LinksOfAt(fetch, urls[..|urls| - 1], i);
    }
  }

  /** Every batch of LinksOf is the link list of its page. */
  lemma LinksOfAll(fetch: string -> Page, urls: seq<string>)
    ensures forall i :: 0 <= i < |urls| ==> LinksOf(fetch, urls)[i] == fetch(urls[i]).links
  {
    forall i | 0 <= i < |urls| ensures LinksOf(fetch, urls)[i] == fetch(urls[i]).links {
      LinksOfAt(fetch, urls, i);
    }
  }

  /** One more page: its histogram is merged last, its record, if it carries
      an error, is logged last, and its link list is forwarded last. */
  lemma AggregateOneMore(fetch: string -> Page, w0: Counts, done: seq<string>, link: string)
    ensures MergeAll(w0, WordsOf(fetch, done + [link]))
         == MergeCounts(MergeAll(w0, WordsOf(fetch, done)), fetch(link).words)
    ensures ErrorLog(RecordsOf(fetch, done + [link]))
         == ErrorLog(RecordsOf(fetch, done)) + ErrorLog([fetch(link).rec])
    ensures LinksOf(fetch, done + [link]) == LinksOf(fetch, done) + [fetch(link).links]
  {
    var now := done + [link];
    assert now[..|done|] == done;
    assert [fetch(link).rec][..0] == [];
  }

  /** The batches pending before the pages `pages` were processed, followed by
      their link lists, then one more page. */
  lemma OneBatchMore(fetch: string -> Page, f0: seq<seq<string>>, pages: seq<string>, link: string,
                     fB: seq<seq<string>>, fA: seq<seq<string>>)
    requires fB == f0 + LinksOf(fetch, pages) && fA == fB + [fetch(link).links]
    ensures fA == f0 + LinksOf(fetch, pages + [link])
  {
    AggregateOneMore(fetch, map[], pages, link);
    ConcatAssoc(f0, LinksOf(fetch, pages), [fetch(link).links]);
  }

  /** The visited set after the inner loop of run has gone through `batch`
      starting from `seen0`: every link of the batch is inserted. */
  function Seen(batch: seq<string>, seen0: set<string>): set<string> {
    if batch == [] then seen0 else Seen(batch[..|batch| - 1], seen0) + {batch[|batch| - 1]}
  }

  /** The links of `batch` that the inner loop of run enqueues, in order: each
      one not visited before its turn and not beaten by cancellation. */
  function Selected(batch: seq<string>, seen0: set<string>, cancelled: string -> bool): seq<string> {
    if batch == [] then []
    else
      var init, link := batch[..|batch| - 1], batch[|batch| - 1];
      Selected(init, seen0, cancelled)
        + (if link !in Seen(init, seen0) && !cancelled(link) then [link] else [])
  }

  /** Whether cancellation wins the race for some link of `batch`. */
  predicate CancelledIn(batch: seq<string>, seen0: set<string>, cancelled: string -> bool) {
    if batch == [] then false
    else
      var init, link := batch[..|batch| - 1], batch[|batch| - 1];
      CancelledIn(init, seen0, cancelled) || (link !in Seen(init, seen0) && cancelled(link))
  }

  lemma {:induction false} SeenMembers(batch: seq<string>, seen0: set<string>)
    ensures forall l :: l in Seen(batch, seen0) <==> l in seen0 || l in batch
    decreases |batch|
  {
    if batch != [] {
      var init := batch[..|batch| - 1];
      SeenMembers(init, seen0);
      assert batch == init + [batch[|batch| - 1]];
    }
  }

  /** A batch enqueues exactly its links that were not visited before it and
      lost no race to cancellation, and none of them twice. */
  lemma {:induction false} SelectedMembers(batch: seq<string>, seen0: set<string>, cancelled: string -> bool)
    ensures forall l :: l in Selected(batch, seen0, cancelled) <==> l in batch && l !in seen0 && !cancelled(l)
    ensures Distinct(Selected(batch, seen0, cancelled))
    ensures forall l :: l in Selected(batch, seen0, cancelled) ==> l in Seen(batch, seen0)
    decreases |batch|
  {
    if batch != [] {
      var init, link := batch[..|batch| - 1], batch[|batch| - 1];
      SelectedMembers(init, seen0, cancelled);
      SeenMembers(init, seen0);
      assert batch == init + [link];
      var pre := Selected(init, seen0, cancelled);
      if link !in Seen(init, seen0) && !cancelled(link) {
        assert link !in pre;
        assert Distinct(pre + [link]) by {
          forall i, j | 0 <= i < j < |pre + [link]| ensures (pre + [link])[i] != (pre + [link])[j] {
            if j == |pre| {
              assert (pre + [link])[i] == pre[i];
            } else {
              assert (pre + [link])[i] == pre[i] && (pre + [link])[j] == pre[j];
            }
          }
        }
      }
    }
  }

  /** The crawl's termination measure: a batch inserts at least as many new
      links into the visited set as it enqueues. */
  lemma {:induction false} SelectionBound(batch: seq<string>, seen0: set<string>,
                                          cancelled: string -> bool, universe: set<string>)
    requires seen0 <= universe
    requires forall i :: 0 <= i < |batch| ==> batch[i] in universe
    ensures Seen(batch, seen0) <= universe
    ensures |universe - Seen(batch, seen0)| + |Selected(batch, seen0, cancelled)| <= |universe - seen0|
    decreases |batch|
  {
    if batch != [] {
      var init, link := batch[..|batch| - 1], batch[|batch| - 1];
      SelectionBound(init, seen0, cancelled, universe);
      var before := Seen(init, seen0);
      assert link in universe && Seen(batch, seen0) == before + {link};
      var grown := if link !in before && !cancelled(link) then [link] else [];
      assert Selected(batch, seen0, cancelled) == Selected(init, seen0, cancelled) + grown;
      if link !in before {
        var rest := universe - Seen(batch, seen0);
        assert universe - before == rest + {link} && link !in rest;
        assert |universe - before| == |rest| + 1;
      }
    }
  }

  /** How the three batch summaries grow by one turn. */
  lemma PrefixStep(batch: seq<string>, j: nat, seen0: set<string>, cancelled: string -> bool)
    requires j < |batch|
    ensures Seen(batch[..j + 1], seen0) == Seen(batch[..j], seen0) + {batch[j]}
    ensures Selected(batch[..j + 1], seen0, cancelled)
         == Selected(batch[..j], seen0, cancelled)
            + (if batch[j] !in Seen(batch[..j], seen0) && !cancelled(batch[j]) then [batch[j]] else [])
    ensures CancelledIn(batch[..j + 1], seen0, cancelled)
         == (CancelledIn(batch[..j], seen0, cancelled) || (batch[j] !in Seen(batch[..j], seen0) && cancelled(batch[j])))
  {
    assert batch[..j + 1][..j] == batch[..j] && batch[..j + 1][j] == batch[j];
  }

  /** Cancellation wins some race in `batch` exactly when some link of it was
      not visited before and its enqueue was beaten by cancellation. */
  lemma {:induction false} CancelledInMeans(batch: seq<string>, seen0: set<string>, cancelled: string -> bool)
    ensures CancelledIn(batch, seen0, cancelled) <==>
            exists i :: 0 <= i < |batch| && batch[i] !in seen0 && cancelled(batch[i])
    decreases |batch|
  {
    if batch != [] {
      var init, link := batch[..|batch| - 1], batch[|batch| - 1];
      CancelledInMeans(init, seen0, cancelled);
      SeenMembers(init, seen0);
      if CancelledIn(batch, seen0, cancelled) {
        if CancelledIn(init, seen0, cancelled) {
          var i :| 0 <= i < |init| && init[i] !in seen0 && cancelled(init[i]);
          assert batch[i] == init[i];
        } else {
          assert batch[|batch| - 1] == link;
        }
      }
      if exists i :: 0 <= i < |batch| && batch[i] !in seen0 && cancelled(batch[i]) {
        var i :| 0 <= i < |batch| && batch[i] !in seen0 && cancelled(batch[i]);
        if i < |init| {
          assert init[i] == batch[i];
        } else if link in Seen(init, seen0) {
          var k :| 0 <= k < |init| && init[k] == link;
          assert batch[k] == link;
        }
      }
    }
  }

  /** Every link found on a page of `pages` is itself one of `pages`. */
  ghost predicate Closed(fetch: string -> Page, pages: seq<string>) {
    forall i, j :: 0 <= i < |pages| && 0 <= j < |fetch(pages[i]).links| ==>
      fetch(pages[i]).links[j] in pages
  }

  /** Every link `fetch` can return lies in `universe`. */
  ghost predicate LinksWithin(fetch: string -> Page, universe: set<string>) {
    forall u, j :: 0 <= j < |fetch(u).links| ==> fetch(u).links[j] in universe
  }

  /** The links enqueued over the whole trace, batch by batch. */
  function Flatten(t: seq<BatchStep>): seq<string> {
    if t == [] then [] else Flatten(t[..|t| - 1]) + t[|t| - 1].enqueued
  }

  /** The visited set and the interrupt flag as the `i`-th batch finds them. */
  function VisitedBefore(t: seq<BatchStep>, i: nat): set<string>
    requires i <= |t|
  {
    if i == 0 then {} else t[i - 1].visitedAfter
  }

  predicate InterruptBefore(t: seq<BatchStep>, i: nat)
    requires i <= |t|
  {
    i > 0 && t[i - 1].interruptAfter
  }

  /** The pending count `cnt` when the outer loop of run tests it before taking
      the `i`-th batch: 1 for the start URL, plus the links enqueued by the
      batches before, minus the batches consumed. */
  function Pending(t: seq<BatchStep>, i: nat): int
    requires i <= |t|
  {
    1 + |Flatten(t[..i])| - i
  }

  /** One iteration of the outer loop of run: with the interrupt flag set the
      batch is only consumed; otherwise its links go through the inner loop. */
  ghost predicate StepOk(s: BatchStep, visited: set<string>, interrupted: bool, cancelled: string -> bool) {
    && s.skipped == interrupted
    && (interrupted ==> s.enqueued == [] && s.visitedAfter == visited && s.interruptAfter)
    && (!interrupted ==>
          && s.enqueued == Selected(s.batch, visited, cancelled)
          && s.visitedAfter == Seen(s.batch, visited)
          && s.interruptAfter == CancelledIn(s.batch, visited, cancelled))
  }

  /** `t` is a history of the outer loop of run, starting from an empty visited
      set and a clear interrupt flag. */
  ghost predicate Follows(t: seq<BatchStep>, cancelled: string -> bool)
    decreases |t|
  {
    t != [] ==>
      var init := t[..|t| - 1];
      Follows(init, cancelled)
      && StepOk(t[|t| - 1], VisitedBefore(init, |init|), InterruptBefore(init, |init|), cancelled)
  }

  lemma FollowsSnoc(t: seq<BatchStep>, s: BatchStep, cancelled: string -> bool)
    requires Follows(t, cancelled)
    requires StepOk(s, VisitedBefore(t, |t|), InterruptBefore(t, |t|), cancelled)
    ensures Follows(t + [s], cancelled)
    ensures VisitedBefore(t + [s], |t| + 1) == s.visitedAfter
    ensures InterruptBefore(t + [s], |t| + 1) == s.interruptAfter
    ensures Flatten(t + [s]) == Flatten(t) + s.enqueued
  {
    assert (t + [s])[..|t|] == t;
  }

  /** Every batch of a history is a proper step from the state the batches
      before it left. */
  lemma {:induction false} FollowsAt(t: seq<BatchStep>, cancelled: string -> bool, i: nat)
    requires Follows(t, cancelled) && i < |t|
    ensures StepOk(t[i], VisitedBefore(t, i), InterruptBefore(t, i), cancelled)
    decreases |t|
  {
    var init := t[..|t| - 1];
    if i < |init| {
      FollowsAt(init, cancelled, i);
      assert init[i] == t[i];
      assert VisitedBefore(init, i) == VisitedBefore(t, i) && InterruptBefore(init, i) == InterruptBefore(t, i);
    } else {
      assert VisitedBefore(init, i) == VisitedBefore(t, i) && InterruptBefore(init, i) == InterruptBefore(t, i);
    }
  }

  /** Once the interrupt flag is set after some batch, every later batch is only
      consumed: nothing is enqueued and `visited` no longer changes. */
  lemma {:induction false} QuietAfterInterrupt(t: seq<BatchStep>, cancelled: string -> bool, i: nat, j: nat)
    requires Follows(t, cancelled)
    requires i < j < |t| && t[i].interruptAfter
    ensures t[j].skipped && t[j].enqueued == [] && t[j].interruptAfter
    ensures t[j].visitedAfter == t[i].visitedAfter
    decreases j - i
  {
    FollowsAt(t, cancelled, j);
    if j > i + 1 {
      QuietAfterInterrupt(t, cancelled, i, j - 1);
    }
  }

  /** Everything the run enqueues is enqueued by the batch that saw the
      interrupt or by an earlier one. */
  lemma {:induction false} NothingEnqueuedAfterInterrupt(t: seq<BatchStep>, cancelled: string -> bool, i: nat)
    requires Follows(t, cancelled)
    requires i < |t| && t[i].interruptAfter
    ensures Flatten(t) == Flatten(t[..i + 1])
    decreases |t|
  {
    if |t| > i + 1 {
      var init := t[..|t| - 1];
      assert init[i] == t[i];
      NothingEnqueuedAfterInterrupt(init, cancelled, i);
      assert init[..i + 1] == t[..i + 1];
      QuietAfterInterrupt(t, cancelled, i, |t| - 1);
      assert Flatten(t) == Flatten(init) + [];
    } else {
      assert t[..i + 1] == t;
    }
  }

  /** What a whole history amounts to, with V the final visited set: the links
      enqueued are exactly the visited links that lost no race to
      cancellation, none of them twice; the interrupt flag is set exactly when
      some visited link lost that race; and without an interrupt every batch
      was looked at and all its links were visited. */
  lemma {:induction false} TraceFacts(t: seq<BatchStep>, cancelled: string -> bool)
    requires Follows(t, cancelled)
    ensures Distinct(Flatten(t))
    ensures forall l :: l in Flatten(t) <==> l in VisitedBefore(t, |t|) && !cancelled(l)
    ensures InterruptBefore(t, |t|) <==> exists l :: l in VisitedBefore(t, |t|) && cancelled(l)
    ensures !InterruptBefore(t, |t|) ==>
              forall i, j :: 0 <= i < |t| && 0 <= j < |t[i].batch| ==> t[i].batch[j] in VisitedBefore(t, |t|)
    decreases |t|
  {
    if t != [] {
      var init, s := t[..|t| - 1], t[|t| - 1];
      TraceFacts(init, cancelled);
      assert t == init + [s];
      var v0 := VisitedBefore(init, |init|);
      var flat0 := Flatten(init);
      assert Flatten(t) == flat0 + s.enqueued;
      if InterruptBefore(init, |init|) {
        assert Flatten(t) == flat0;
      } else {
        SeenMembers(s.batch, v0);
        SelectedMembers(s.batch, v0, cancelled);
        CancelledInMeans(s.batch, v0, cancelled);
        DistinctConcat(flat0, s.enqueued);
        if InterruptBefore(t, |t|) {
          var i :| 0 <= i < |s.batch| && s.batch[i] !in v0 && cancelled(s.batch[i]);
          assert s.batch[i] in VisitedBefore(t, |t|);
        } else {
          forall i, j | 0 <= i < |t| && 0 <= j < |t[i].batch|
            ensures t[i].batch[j] in VisitedBefore(t, |t|)
          {
            if i < |init| {
              assert t[i] == init[i];
            } else {
              assert s.batch[j] in s.batch;
            }
          }
        }
      }
    }
  }

  /** Without an interrupt the pages aggregated by run, the start URL followed
      by every enqueued link, are closed under taking links. */
  lemma RunClosed(fetch: string -> Page, t: seq<BatchStep>, cancelled: string -> bool, pages: seq<string>)
    requires Follows(t, cancelled) && !InterruptBefore(t, |t|)
    requires |pages| == |t|
    requires forall i :: 0 <= i < |t| ==> t[i].batch == fetch(pages[i]).links
    requires forall l :: l in Flatten(t) ==> l in pages
    ensures Closed(fetch, pages)
  {
    TraceFacts(t, cancelled);
    forall i, j | 0 <= i < |pages| && 0 <= j < |fetch(pages[i]).links|
      ensures fetch(pages[i]).links[j] in pages
    {
      var l := t[i].batch[j];
      assert l in VisitedBefore(t, |t|);
      assert l in Flatten(t);
    }
  }

  /** The interrupt flag is only looked at between batches: in the batch where
      cancellation wins, a later unvisited link can still be enqueued. */
  lemma EnqueuedAfterCancelInBatch()
    ensures var cancelled := (l: string) => l == "a";
            && CancelledIn(["a", "b"], {}, cancelled)
            && Selected(["a", "b"], {}, cancelled) == ["b"]
  {
    var cancelled := (l: string) => l == "a";
    var batch := ["a", "b"];
    assert batch[..1] == ["a"] && batch[..1][..0] == [];
    assert Seen(["a"], {}) == {"a"};
  }

  /** The bookkeeping of one outer-loop turn of run: when the batch at the
      head of the FIFO is consumed and the pages `enq` are processed, the FIFO
      still holds the link batches of the processed pages not yet consumed,
      in order. */
  lemma FifoStep(fetch: string -> Page, fifo: seq<seq<string>>, processed: seq<string>,
                 t: seq<BatchStep>, step: BatchStep, enq: seq<string>)
    requires |fifo| > 0 && |processed| == |t| + |fifo| && step.batch == fifo[0]
    requires forall i :: 0 <= i < |t| ==> t[i].batch == fetch(processed[i]).links
    requires forall i :: 0 <= i < |fifo| ==> fifo[i] == fetch(processed[|t| + i]).links
    ensures var t1, p1, f1 := t + [step], processed + enq, fifo[1..] + LinksOf(fetch, enq);
            && |p1| == |t1| + |f1|
            && (forall i :: 0 <= i < |t1| ==> t1[i].batch == fetch(p1[i]).links)
            && (forall i :: 0 <= i < |f1| ==> f1[i] == fetch(p1[|t1| + i]).links)
  {
    var t1, p1, f1 := t + [step], processed + enq, fifo[1..] + LinksOf(fetch, enq);
    LinksOfAll(fetch, enq);
    forall i | 0 <= i < |t1| ensures t1[i].batch == fetch(p1[i]).links {
      if i < |t| {
        assert t1[i] == t[i] && p1[i] == processed[i];
      } else {
        assert fifo[0] == fetch(processed[|t| + 0]).links;
        assert p1[i] == processed[i];
      }
    }
    forall i | 0 <= i < |f1| ensures f1[i] == fetch(p1[|t1| + i]).links {
      if i < |fifo| - 1 {
        assert f1[i] == fifo[i + 1] == fetch(processed[|t| + i + 1]).links;
        assert p1[|t1| + i] == processed[|t| + i + 1];
      } else {
        assert f1[i] == LinksOf(fetch, enq)[i - (|fifo| - 1)];
        assert p1[|t1| + i] == enq[i - (|fifo| - 1)];
      }
    }
  }

  /** The state of run at the top of its outer loop, on plain values: `processed`
      lists the pages handed to workers so far (the start URL `seed`, then every
      enqueued link), the first `|trace|` of them have had their link batch
      consumed, the pending count `cnt` equals the batches still in the FIFO
      `fifo`, every batch was taken while the count was positive, and
      `visited` and `interrupted` are what the history left. */
  ghost predicate History(seed: string, fetch: string -> Page, cancelled: string -> bool, universe: set<string>,
                          fifo: seq<seq<string>>, interrupted: bool, visited: set<string>, cnt: int, pages: nat,
                          processed: seq<string>, trace: seq<BatchStep>)
  {
    && processed == [seed] + Flatten(trace)
    && cnt == |fifo| && |processed| == |trace| + cnt && pages == |processed|
    && (forall i :: 0 <= i < |trace| ==> Pending(trace, i) > 0)
    && (forall i :: 0 <= i < |trace| ==> trace[i].batch == fetch(processed[i]).links)
    && (forall i :: 0 <= i < |fifo| ==> fifo[i] == fetch(processed[|trace| + i]).links)
    && Follows(trace, cancelled)
    && visited == VisitedBefore(trace, |trace|) && interrupted == InterruptBefore(trace, |trace|)
    && visited <= universe
  }

  /** A batch taken while the count is positive keeps every batch of the
      history taken while it was positive. */
  lemma PendingSnoc(t: seq<BatchStep>, step: BatchStep)
    requires forall i :: 0 <= i < |t| ==> Pending(t, i) > 0
    requires Pending(t, |t|) > 0
    ensures forall i :: 0 <= i < |t| + 1 ==> Pending(t + [step], i) > 0
  {
    var t1 := t + [step];
    forall i | 0 <= i < |t1| ensures Pending(t1, i) > 0 {
      assert t1[..i] == t[..i];
      assert Pending(t1, i) == Pending(t, i);
    }
  }

  /** One outer-loop turn, taken while `cnt` is positive, keeps the History
      and lowers the termination measure `|universe - visited| + cnt`. */
  lemma HistoryStep(seed: string, fetch: string -> Page, cancelled: string -> bool, universe: set<string>,
                    fifo: seq<seq<string>>, interrupted: bool, visited: set<string>, cnt: int, pages: nat,
                    processed: seq<string>, trace: seq<BatchStep>, step: BatchStep,
                    fifo1: seq<seq<string>>, interrupted1: bool, visited1: set<string>, cnt1: int, pages1: nat,
                    processed1: seq<string>, trace1: seq<BatchStep>)
    requires LinksWithin(fetch, universe)
    requires History(seed, fetch, cancelled, universe, fifo, interrupted, visited, cnt, pages, processed, trace)
    requires cnt > 0 && step.batch == fifo[0]
    requires StepOk(step, visited, interrupted, cancelled)
    requires fifo1 == fifo[1..] + LinksOf(fetch, step.enqueued)
    requires interrupted1 == step.interruptAfter && visited1 == step.visitedAfter
    requires cnt1 == cnt + |step.enqueued| - 1 && pages1 == pages + |step.enqueued|
    requires processed1 == processed + step.enqueued && trace1 == trace + [step]
    ensures History(seed, fetch, cancelled, universe, fifo1, interrupted1, visited1, cnt1, pages1, processed1, trace1)
    ensures |universe - visited1| + cnt1 < |universe - visited| + cnt
  {
    var l := fifo[0];
    assert forall i :: 0 <= i < |l| ==> l[i] in universe;
    SelectionBound(l, visited, cancelled, universe);
    FifoStep(fetch, fifo, processed, trace, step, step.enqueued);
    FollowsSnoc(trace, step, cancelled);
    ConcatAssoc([seed], Flatten(trace), step.enqueued);
    assert |fifo1| == cnt - 1 + |step.enqueued|;
    assert trace[..|trace|] == trace;
    PendingSnoc(trace, step);
  }

  class WordFinder {
    var words: Counts
    var errRecs: seq<SearchRecord>
    const target: string
    const startURL: string
    /** The filter channel: link batches waiting for the controller, oldest first. */
    var filter: seq<seq<string>>
    var interrupt: bool
    /** RunStats: sends that went straight into the filter channel, and sends
        that had to be handed to a relief goroutine. */
    var chanFree: nat
    var chanBlocked: nat

    /** newWordFinder; `hostname` is startURL.Hostname() and `startURL` the
        URL's string form. */
    constructor (startURL: string, hostname: string)
      ensures this.startURL == startURL && target == CrawlTarget(hostname)
      ensures words == map[] && errRecs == [] && filter == [] && !interrupt
      ensures chanFree == 0 && chanBlocked == 0
    {
      this.startURL := startURL;
      target := CrawlTarget(hostname);
      words := map[];
      errRecs := [];
      filter := [];
      interrupt := false;
      chanFree, chanBlocked := 0, 0;
    }

    /** addLinkData: logs the record if it carries an error, adds the page
        histogram into `words`, and forwards the links to the filter channel,
        counting whether the send would have blocked. */
    method AddLinkData(sr: SearchRecord, wds: Counts, links: seq<string>, wouldBlock: bool)
      modifies this
      ensures errRecs == if sr.err.Some? then old(errRecs) + [sr] else old(errRecs)
      ensures words == MergeCounts(old(words), wds)
      ensures chanFree == old(chanFree) + (if wouldBlock then 0 else 1)
      ensures chanBlocked == old(chanBlocked) + (if wouldBlock then 1 else 0)
      ensures filter == old(filter) + [links]
      ensures interrupt == old(interrupt)
      ensures Current() == AfterPage(old(Current()), Page(sr, wds, links), wouldBlock)
    {
      ghost var w0 := words;
      if sr.err.Some? {
        errRecs := errRecs + [sr];
      }
      var rest := wds.Keys;
      while rest != {}
        modifies this`words
        invariant rest <= wds.Keys
        invariant words.Keys == w0.Keys + (wds.Keys - rest)
        invariant forall k :: k in wds && k !in rest ==> words[k] == Count(w0, k) + wds[k]
        invariant forall k :: k in w0 && (k !in wds || k in rest) ==> words[k] == w0[k]
        decreases rest
      {
        var k :| k in rest;
        words := words[k := Count(words, k) + wds[k]];
        rest := rest - {k};
      }
      MergeCountsUnique(w0, wds, words);
      if wouldBlock {
        chanBlocked := chanBlocked + 1;
        // The relief goroutine's send is modelled as its eventual arrival.
        filter := filter + [links];
      } else {
        chanFree := chanFree + 1;
        filter := filter + [links];
      }
    }

    /** The totals the aggregator has accumulated so far. */
    function Current(): Totals
      reads this
    {
      Totals(words, errRecs, chanFree, chanBlocked)
    }

    /** The aggregate state holds exactly the pages at `pages`, numbered from
        0 on, handed to AddLinkData on top of `base`. */
    ghost predicate Aggregated(base: Totals, fetch: string -> Page, wouldBlock: nat -> bool, pages: seq<string>)
      reads this
    {
      Current() == Aggregate(base, fetch, wouldBlock, pages)
    }

    /** One turn of the inner loop of run, for the link `link`: if it is not in
        `visited` yet it is inserted, counted as pending work and offered to the
        task queue; when cancellation wins the race the count is undone and the
        interrupt flag is set, otherwise a worker fetches the page, the
        `pages0`-th, and hands it to AddLinkData. `enqueued0` lists the links
        the batch has enqueued so far while the batches `f0` were pending;
        before them the pages `done` were handed to AddLinkData on top of
        `base`. */
    method OfferLink(link: string, visited0: set<string>, cnt0: int,
                     fetch: string -> Page, cancelled: string -> bool,
                     wouldBlock: nat -> bool, pages0: nat,
                     ghost base: Totals, ghost done: seq<string>,
                     ghost f0: seq<seq<string>>, ghost enqueued0: seq<string>)
      returns (visited: set<string>, cnt: int, pages: nat, ghost enqueued: seq<string>)
      requires pages0 == |done + enqueued0|
      requires filter == f0 + LinksOf(fetch, enqueued0)
      requires Aggregated(base, fetch, wouldBlock, done + enqueued0)
      modifies this
      ensures visited == visited0 + {link}
      ensures interrupt == (old(interrupt) || (link !in visited0 && cancelled(link)))
      ensures link !in visited0 && !cancelled(link) ==>
                enqueued == enqueued0 + [link] && cnt == cnt0 + 1 && pages == pages0 + 1
      ensures !(link !in visited0 && !cancelled(link)) ==>
                enqueued == enqueued0 && cnt == cnt0 && pages == pages0
      ensures filter == f0 + LinksOf(fetch, enqueued)
      ensures Aggregated(base, fetch, wouldBlock, done + enqueued)
    {
      visited, cnt, pages, enqueued := visited0, cnt0, pages0, enqueued0;
      if link !in visited {
        visited := visited + {link};
        cnt := cnt + 1;
        if cancelled(link) {
          cnt := cnt - 1;
          interrupt := true;
        } else {
          var page := fetch(link);
          ghost var fB, before := filter, Current();
          AddLinkData(page.rec, page.words, page.links, wouldBlock(pages));
          AggregateNext(base, fetch, wouldBlock, done + enqueued0, link, before, Current());
          ConcatAssoc(done, enqueued0, [link]);
          OneBatchMore(fetch, f0, enqueued0, link, fB, filter);
          pages := pages + 1;
          enqueued := enqueued + [link];
        }
      }
    }

    /** The inner loop of run over one link batch `batch`, turn by turn
        (OfferLink); the pages it hands to workers are numbered from `pages0`,
        after the pages `done` already handed to AddLinkData on top of `base`. */
    method FilterBatch(batch: seq<string>, visited0: set<string>, cnt0: int,
                       fetch: string -> Page, cancelled: string -> bool,
                       wouldBlock: nat -> bool, pages0: nat,
                       ghost base: Totals, ghost done: seq<string>)
      returns (visited: set<string>, cnt: int, pages: nat, ghost enqueued: seq<string>)
      requires !interrupt
      requires pages0 == |done| && Aggregated(base, fetch, wouldBlock, done)
      modifies this
      ensures visited == Seen(batch, visited0)
      ensures enqueued == Selected(batch, visited0, cancelled)
      ensures interrupt == CancelledIn(batch, visited0, cancelled)
      ensures cnt == cnt0 + |enqueued| && pages == pages0 + |enqueued|
      ensures filter == old(filter) + LinksOf(fetch, enqueued)
      ensures Aggregated(base, fetch, wouldBlock, done + enqueued)
    {
      ghost var f0 := filter;
      visited, cnt, pages, enqueued := visited0, cnt0, pages0, [];
      assert f0 + LinksOf(fetch, enqueued) == f0;
      assert done + enqueued == done;
      var j := 0;
      while j < |batch|
        invariant 0 <= j <= |batch|
        invariant visited == Seen(batch[..j], visited0)
        invariant enqueued == Selected(batch[..j], visited0, cancelled)
        invariant interrupt == CancelledIn(batch[..j], visited0, cancelled)
        invariant cnt == cnt0 + |enqueued| && pages == pages0 + |enqueued|
        invariant filter == f0 + LinksOf(fetch, enqueued)
        invariant Aggregated(base, fetch, wouldBlock, done + enqueued)
      {
        PrefixStep(batch, j, visited0, cancelled);
        visited, cnt, pages, enqueued := OfferLink(batch[j], visited, cnt, fetch, cancelled, wouldBlock,
                                                   pages, base, done, f0, enqueued);
        j := j + 1;
      }
      assert batch[..j] == batch;
    }

    /** The state of run at the top of its outer loop: the History of the
        controller, and an aggregate that holds exactly the processed pages,
        numbered from 0, on top of `base`. */
    ghost predicate RunInv(fetch: string -> Page, cancelled: string -> bool, wouldBlock: nat -> bool,
                           universe: set<string>, base: Totals,
                           visited: set<string>, cnt: int, pages: nat,
                           processed: seq<string>, trace: seq<BatchStep>)
      reads this
    {
      && History(startURL, fetch, cancelled, universe, filter, interrupt, visited, cnt, pages, processed, trace)
      && Aggregated(base, fetch, wouldBlock, processed)
    }

    /** One turn of the outer loop of run: take the next link batch from the
        FIFO, skip it if the interrupt flag is set and otherwise filter it
        (FilterBatch), then count the batch as done. */
    method ConsumeBatch(fetch: string -> Page, cancelled: string -> bool, wouldBlock: nat -> bool,
                        ghost universe: set<string>, ghost base: Totals,
                        visited0: set<string>, cnt0: int, pages0: nat,
                        ghost processed0: seq<string>, ghost trace0: seq<BatchStep>)
      returns (visited: set<string>, cnt: int, pages: nat,
               ghost processed: seq<string>, ghost trace: seq<BatchStep>)
      requires LinksWithin(fetch, universe)
      requires cnt0 > 0
      requires RunInv(fetch, cancelled, wouldBlock, universe, base, visited0, cnt0, pages0, processed0, trace0)
      modifies this
      ensures RunInv(fetch, cancelled, wouldBlock, universe, base, visited, cnt, pages, processed, trace)
      ensures |trace| == |trace0| + 1 && trace[..|trace0|] == trace0
      ensures trace[|trace0|].batch == old(filter)[0]
      ensures StepOk(trace[|trace0|], visited0, old(interrupt), cancelled)
      ensures processed == processed0 + trace[|trace0|].enqueued
      ensures cnt == cnt0 - 1 + |trace[|trace0|].enqueued|
      ensures |universe - visited| + cnt < |universe - visited0| + cnt0
    {
      ghost var fifo, interrupt0 := filter, interrupt;
      var l := filter[0];
      filter := filter[1..];
      ghost var step;
      visited, cnt, pages := visited0, cnt0, pages0;
      if interrupt {
        step := BatchStep(l, true, [], visited, true);
        assert StepOk(step, visited0, interrupt0, cancelled);
        assert filter == fifo[1..] + LinksOf(fetch, step.enqueued);
        assert processed0 + step.enqueued == processed0;
      } else {
        ghost var enq;
        visited, cnt, pages, enq := FilterBatch(l, visited, cnt, fetch, cancelled, wouldBlock, pages,
                                                 base, processed0);
        step := BatchStep(l, false, enq, visited, interrupt);
        assert StepOk(step, visited0, interrupt0, cancelled);
      }
      processed := processed0 + step.enqueued;
      trace := trace0 + [step];
      cnt := cnt - 1;
      HistoryStep(startURL, fetch, cancelled, universe, fifo, interrupt0, visited0, cnt0, pages0,
                  processed0, trace0, step, filter, interrupt, visited, cnt, pages, processed, trace);
      assert trace[..|trace0|] == trace0;
    }

    /** run: the start URL is handed to a worker, then link batches are taken
        from the filter FIFO, one per loop turn, as long as the pending count
        `cnt` is positive. `trace` is the history of the outer loop and
        `scheduled` the links enqueued, in order; the pages aggregated are the
        start URL followed by `scheduled`, numbered from 0. Every link `fetch`
        can return lies in the finite set `universe`, which bounds the crawl. */
    method Run(fetch: string -> Page, cancelled: string -> bool, wouldBlock: nat -> bool,
               ghost universe: set<string>)
      returns (ghost scheduled: seq<string>, ghost trace: seq<BatchStep>)
      requires filter == [] && !interrupt
      requires LinksWithin(fetch, universe)
      modifies this
      ensures filter == []
      ensures Follows(trace, cancelled) && scheduled == Flatten(trace)
      ensures forall i :: 0 <= i < |trace| ==> Pending(trace, i) > 0
      ensures Pending(trace, |trace|) == 0 && |trace| == 1 + |scheduled|
      ensures forall i :: 0 <= i < |trace| ==> trace[i].batch == fetch(([startURL] + scheduled)[i]).links
      ensures interrupt == InterruptBefore(trace, |trace|)
      ensures Aggregated(old(Current()), fetch, wouldBlock, [startURL] + scheduled)
      ensures Distinct(scheduled)
      ensures forall l :: l in scheduled <==> l in VisitedBefore(trace, |trace|) && !cancelled(l)
      ensures interrupt <==> exists l :: l in VisitedBefore(trace, |trace|) && cancelled(l)
      ensures !interrupt ==> Closed(fetch, [startURL] + scheduled)
    {
      ghost var base := Current();
      var page := fetch(startURL);
      AddLinkData(page.rec, page.words, page.links, wouldBlock(0));
      AggregateSnoc(base, fetch, wouldBlock, [], startURL);
      assert [] + [startURL] == [startURL];
      var visited: set<string> := {};
      var pages: nat := 1;
      ghost var processed := [startURL];
      trace := [];
      var cnt := 1;
      while cnt > 0
        invariant RunInv(fetch, cancelled, wouldBlock, universe, base, visited, cnt, pages, processed, trace)
        decreases |universe - visited| + cnt
      {
        visited, cnt, pages, processed, trace :=
          ConsumeBatch(fetch, cancelled, wouldBlock, universe, base, visited, cnt, pages, processed, trace);
      }
      scheduled := Flatten(trace);
      assert trace[..|trace|] == trace;
      TraceFacts(trace, cancelled);
      if !interrupt {
        RunClosed(fetch, trace, cancelled, processed);
      }
    }

    /** The first loop of getResults: every entry of the histogram copied into
        a new pair array, in the map's iteration order. */
    method Gather() returns (sorter: array<KvPair>)
      ensures fresh(sorter) && sorter.Length == |words|
      ensures PairsOf(sorter[..], words) && DistinctKeys(sorter[..]) && Covers(sorter[..], words)
    {
      var hist := words;
      sorter := new KvPair[|hist|];
      var i := 0;
      var rest := hist.Keys;
      ghost var pos: map<string, nat> := map[];
      while rest != {}
        invariant rest <= hist.Keys && i + |rest| == |hist|
        invariant forall p :: 0 <= p < i ==> sorter[p].key in hist && sorter[p].key !in rest
        invariant forall p :: 0 <= p < i ==> hist[sorter[p].key] == sorter[p].value
        invariant forall p, q :: 0 <= p < q < i ==> sorter[p].key != sorter[q].key
        invariant forall k :: k in hist && k !in rest ==> k in pos && pos[k] < i && sorter[pos[k]].key == k
        modifies sorter
        decreases rest
      {
        var k :| k in rest;
        sorter[i] := KvPair(k, hist[k]);
        pos := pos[k := i];
        i := i + 1;
        rest := rest - {k};
      }
      forall k | k in hist ensures exists p :: 0 <= p < sorter.Length && sorter[..][p].key == k {
        assert sorter[..][pos[k]].key == k;
      }
    }

    /** getResults: the histogram copied into a pair array, sorted by count,
        and cut to the first `totWords` pairs. */
    method GetResults(totWords: nat) returns (res: seq<KvPair>)
      ensures |res| == if totWords < |words| then totWords else |words|
      ensures Sorted(res) && PairsOf(res, words) && DistinctKeys(res)
      ensures forall k :: k in words && (forall p :: 0 <= p < |res| ==> res[p].key != k) ==>
                forall p :: 0 <= p < |res| ==> words[k] <= res[p].value
      ensures |words| <= totWords ==> Covers(res, words)
    {
      var sorter := Gather();
      ghost var gathered := sorter[..];
      SortPairs(sorter);
      PermutationKeepsEntries(sorter[..], gathered, words);
      var cnt := totWords;
      if sorter.Length < cnt {
        cnt := sorter.Length;
      }
      res := sorter[..cnt];
      SortedPrefixIsTop(sorter[..], words, res);
      PrefixKeepsOrder(sorter[..], words, cnt);
      if |words| <= totWords {
        assert res == sorter[..];
      }
    }
  }
}
