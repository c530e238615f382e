# site_word_frequency in Dafny

A model of the sequential core of the site_word_frequency crawler. The crawler
starts from one URL, follows the links it finds within the start site, builds a
frequency histogram of the words on the pages, and reports the most frequent
words. The model covers:

- the crawl target that `newWordFinder` derives from the start URL's hostname;
- the aggregator `addLinkData`, which merges a page's histogram into `words`,
  logs records that carry an error, forwards the page's links to the filter
  channel and counts whether that send would have blocked;
- the controller loop `run`, which consumes link batches from the filter
  channel, dedups them against `visited`, enqueues new links and keeps the
  pending-work counter `cnt`, with cancellation racing each enqueue;
- the ranking `getResults` with `kvSorter`;
- from `main.go`, the min/max word-length check and the status-line truncation.

Modules:

- `Wrappers`: an Option type.
- `Sequences`: distinctness and small multiset/sequence lemmas.
- `Histogram`: the map merge of `addLinkData` and the fold of many merges.
- `Ranking`: `kvPair`, `kvSorter.Less`/`Swap`, and a sort standing for `sort.Sort`.
- `Finder`: the `WordFinder` class, with the controller loop and the ranking.
- `Cli`: the two pieces of `main.go`.

The pipeline runs sequentially in the model:

- `fetch: string -> Page` stands for `SearchRecord.processLink`: a page's
  record, its histogram and its links.
- A link the controller enqueues is at once processed by a worker. The worker
  passes the page to `AddLinkData`, which appends the links to `filter`, the
  FIFO of pending link batches.
- `cancelled: string -> bool` says, for each link, whether `ctx.Done()` wins
  the `select` against the send to the tasks channel. Each link is offered at
  most once, so a per-link oracle covers every outcome.
- `wouldBlock: nat -> bool` says, for the n-th page, whether the send to the
  filter channel would block.
- `universe` is a finite set holding every link `fetch` can return. It bounds
  the crawl and gives the loop its termination measure,
  `|universe - visited| + cnt`.

`Run` returns, as ghost values, the links it enqueued (`scheduled`) and the
history of its outer loop (`trace`, one `BatchStep` per consumed batch). Its
contract states the whole history:

- every batch is the link list of the matching processed page;
- every step follows the code, as `Follows` says;
- `Pending(trace, i)`, the value of `cnt` when the loop tests it before the
  `i`-th batch, is positive before every batch taken and zero after the last,
  so the loop takes a batch exactly while work is pending;
- the aggregate (`Totals`: histogram, error log and the two counters) is
  `Aggregate` of the start page and the scheduled pages, numbered from 0: one
  `AfterPage` step per page, as `addLinkData` does it. `AggregateMeans` reads
  that value component by component: the histograms merged in order, the
  records with an error logged in order, and each page's send counted in
  `chanBlocked` when `wouldBlock` says it would block and in `chanFree`
  otherwise.

Lemmas over the history give the properties:

- no link is enqueued twice;
- the enqueued links are exactly the visited links that lost no race to
  cancellation;
- the interrupt flag is set exactly when some visited link lost that race;
- without an interrupt, the processed pages are closed under links;
- after the batch that saw the interrupt, nothing more is enqueued and
  `visited` stays as it is.

Two details of the code are kept as written:

- The start URL is never put into `visited` (finder.go:73, 88). A page that
  links back to it therefore schedules it once more, and `scheduled` may
  contain the start URL.
- The interrupt flag is read only when a batch is taken (finder.go:100).
  In the batch where cancellation wins a race, the remaining new links are
  still marked visited and still offered to the tasks channel, and any of them
  can still be enqueued. `EnqueuedAfterCancelInBatch` exhibits this.

## Model

| member | source | states |
|---|---|---|
| Finder.CrawlTarget | finder.go:50-53 | with a leading "www." the target is the hostname minus exactly that prefix; otherwise it is the hostname unchanged |
| Finder.CrawlTargetStripsOnce | finder.go:50-53 | only one "www." is removed: the target of "www." + h is h, even when h itself starts with "www." |
| Finder.WordFinder.constructor | finder.go:45-63 | a new finder has an empty histogram, error log, filter FIFO and statistics, no interrupt, and the stripped target |
| Finder.WordFinder.AddLinkData | finder.go:137-163 | the record is appended to the error log exactly when it carries an error; `words` becomes the merge of the old histogram with the page's; exactly one of chanFree/chanBlocked grows by one, chosen by whether the send would block; the links are appended to the filter FIFO; the interrupt flag is untouched; so the totals are one AfterPage step from the old ones |
| Histogram.MergeCounts | finder.go:145-147 | the merged histogram has the keys of both; a word of the page gets its old count (0 if new) plus the page's count; every other word keeps its count |
| Histogram.MergeCountsUnique | finder.go:145-147 | any map with those keys and totals is the merge, so the update loop's result does not depend on the order it visits the keys |
| Histogram.MergeCountsCommute | finder.go:145-147 | two pages merged in either order give the same totals |
| Histogram.MergeAllPermutation | finder.go:145-147 | merging a set of pages gives the same histogram whatever order the workers deliver them in |
| Finder.AggregateNext | finder.go:137-163 | one more addLinkData call on totals that hold a run of pages gives totals that hold that run followed by the page |
| Finder.AggregateMeans | finder.go:137-163 | the totals after a run of pages on top of a base: the base histogram with every page histogram merged in order, the base error log followed by the records of the run that carry an error, chanBlocked raised by the number of sends that would block and chanFree by the rest |
| Finder.AggregateWords | finder.go:145-147 | the histogram of the totals after a run of pages is the base histogram with the pages' histograms merged in order |
| Finder.AggregateErrors | finder.go:142-144 | the error log of the totals after a run of pages is the base log followed by the records of the run that carry an error |
| Finder.AggregateCounters | finder.go:152-158 | after a run of n pages, chanBlocked has grown by the number of the n sends that would block and chanFree by the others |
| Finder.ErrorLogMembers | finder.go:142-144 | a record is in the log of a run of records exactly when it is in the run and carries an error |
| Finder.ErrorLogConcat | finder.go:142-144 | the log of two runs of records is the log of the first followed by the log of the second |
| Finder.WordFinder.OfferLink | finder.go:105-117 | one link: it ends up in `visited`; it is enqueued, processed and counted exactly when it was new and cancellation did not win; if it was new and cancellation won, the counter increment is undone and the interrupt flag is set; the filter FIFO grows by exactly the processed page's links, and the totals, which held the pages before, now hold them followed by that page, its send counted in chanBlocked when it would block and in chanFree otherwise |
| Finder.WordFinder.FilterBatch | finder.go:104-119 | one batch: `visited` becomes Seen, the enqueued links are Selected, the interrupt flag is CancelledIn, `cnt` and the page count grow by the number enqueued, the FIFO grows by exactly the enqueued pages' link lists, and the totals, which held the pages processed before, now hold them followed by the enqueued pages, chanBlocked grown by those whose send would block and chanFree by the others |
| Finder.SelectedMembers | finder.go:104-117 | a batch enqueues exactly the links that were not visited before and lost no race to cancellation, none twice, and all of them end up visited |
| Finder.CancelledInMeans | finder.go:112-116 | a batch sets the interrupt flag exactly when one of its links was new and lost the race to cancellation |
| Finder.SelectionBound | finder.go:104-116 | a batch inserts at least as many links into `visited` as it enqueues, and `visited` stays within the universe |
| Finder.HistoryStep | finder.go:93-120 | one outer-loop turn taken while the counter is positive keeps the controller's bookkeeping: the counter equals the batches still in the FIFO, each of them the link list of a processed page not yet consumed, and every batch consumed so far was taken while the counter was positive; and the measure `\|universe - visited\| + cnt` goes down |
| Finder.WordFinder.ConsumeBatch | finder.go:93-120 | one outer-loop turn: the history grows by one step whose batch is the head of the FIFO and which is a proper step from the old visited set and interrupt flag (skipped when the flag is set, filtered otherwise); the processed pages grow by exactly that step's enqueued links; `cnt` becomes cnt - 1 + (links enqueued); the run invariant, with the counter split, is kept and the termination measure goes down |
| Finder.WordFinder.Run | finder.go:68-120 | the loop ends with an empty FIFO after exactly 1 + (links enqueued) batches; the history follows the code; the pending count is positive before every batch taken and zero after the last; no link is enqueued twice; the enqueued links are exactly the visited links not beaten by cancellation; the interrupt flag is set exactly when a visited link was beaten; without an interrupt the processed pages are closed under links; the histogram, error log and statistics are the aggregate of exactly the start page and the enqueued pages, numbered from 0, with each send counted in chanBlocked when `wouldBlock` says it would block and in chanFree otherwise (AggregateMeans) |
| Finder.FollowsAt | finder.go:93-120 | every batch of a history is a proper step from the visited set and interrupt flag that the batches before it left |
| Finder.QuietAfterInterrupt | finder.go:100-102 | once a batch leaves the interrupt flag set, every later batch is skipped: it enqueues nothing, leaves `visited` as it was and keeps the flag set |
| Finder.NothingEnqueuedAfterInterrupt | finder.go:100-117 | every link the run enqueues is enqueued by the batch that set the interrupt flag or by an earlier one |
| Finder.TraceFacts | finder.go:104-117 | over a whole history: the enqueued links are distinct and are exactly the visited links not beaten by cancellation; the flag is set exactly when a visited link was beaten; without an interrupt every link of every batch was visited |
| Finder.RunClosed | finder.go:73-120 | without an interrupt, every link on a processed page is itself a processed page |
| Finder.EnqueuedAfterCancelInBatch | finder.go:104-119 | in the batch ["a", "b"] where "a" loses the race to cancellation, the flag is set and "b" is still enqueued |
| Finder.WordFinder.Gather | finder.go:167-172 | the pair array has one pair per word of the histogram, each with that word's count, and no word twice |
| Ranking.Swap | finder.go:198-200 | the two entries trade places and the contents stay the same multiset |
| Ranking.SortPairs | finder.go:173 | the array ends up ordered by non-increasing count and is a permutation of what it held |
| Ranking.PermutationKeepsEntries | finder.go:167-173 | sorting keeps the listing exactly the histogram's entries, with no word twice and every word present |
| Ranking.PrefixKeepsOrder | finder.go:174-178 | cutting a sorted listing of entries keeps it sorted, made of entries and free of repeated words |
| Ranking.SortedPrefixIsTop | finder.go:173-178 | the kept pairs are the largest counts: every word left out counts at most as much as every word kept |
| Finder.WordFinder.GetResults | finder.go:166-178 | the result has min(totWords, number of words) pairs, in non-increasing count order, each a histogram entry, with distinct words; every word left out counts at most as much as every word kept; with totWords at least the number of words, every word is present |
| Cli.ValidBoundsMeaning | main.go:71-72 | the bounds are accepted exactly when at least one of them is set (0 meaning no limit, main.go:46-49) and some non-empty word length lies within them |
| Cli.LengthBoundCases | main.go:71-72 | both bounds 0 is refused; a set upper bound below the lower one is refused; equal positive bounds, and any positive lower bound with no upper bound, are accepted |
| Cli.Truncate | main.go:182-184 | text longer than 75 bytes becomes exactly 75 bytes, its first 72 followed by "..."; shorter text is unchanged |
| Cli.TruncateIdempotent | main.go:182-184 | a truncated line fits in 75 bytes and truncating it again changes nothing |

## Left out

- Goroutines, `sync.Mutex`, `sync.WaitGroup`, and channel closing and blocking (finder.go:74-85, 130-132, 139, 155-161). This is concurrency. Pages are handled one at a time in a single valid interleaving: a link is processed as soon as it is enqueued. `MergeAllPermutation` shows that the order of arrival does not change the histogram.
- The relief goroutine of `addLinkData` (finder.go:159-161) is modelled as an immediate append of the links to the filter FIFO. The model therefore does not capture a blocked send arriving later than sends made after it.
- `context` cancellation timing and Go's random choice among ready `select` cases are replaced by the per-link oracle `cancelled`.
- `SearchRecord.processLink` (HTTP fetching, HTML parsing, word extraction, the same-site link filter) is not part of this model. It appears as the `fetch` parameter, and the word-length bounds are not applied to words.
- `url.Parse`, `Hostname()` and `String()` are not modelled. The constructor takes the hostname and the start URL's string form as parameters.
- `sort.Sort` internals are not modelled. `SortPairs` (an insertion sort) stands for it and is specified only as a permutation with non-increasing counts. Among equal counts the order is unconstrained, as `Less` compares counts only.
- `Finder.WordFinder.GetResults`: the order among equal counts is not `sort.Sort`'s, because it is deliberately left unconstrained.
- `Finder.WordFinder.Run`: the universe of reachable links is a parameter, so the model assumes finitely many links, which an unbounded web does not guarantee.
- Go's `int64` statistics counters and `int` word counts are unbounded integers here. Wrap-around after 2^63 events is not modelled.
- `totWords` (main.go:50) is a `uint` flag, while `len(sorter)` is an `int`. finder.go:174-176 compares and assigns the two with no conversion, so the code as written mixes `int` and `uint`, which Go does not compile. The model takes the evident meaning: a natural number `totWords`, and a result of length `min(totWords, |words|)`.
- `getErrors` and `getRunStats` (finder.go:183-189) are plain field reads, and `kvSorter.Len` is `len`. They have no model members.
- Flag parsing, the missing-URL check, pprof and profiling, signal handling, `newFormatter` terminal detection, escape sequences, all `fmt`/`log` output, `showStatus`, and the non-terminal branch of `showStatusLine` (main.go:39-69, 73-170, 186-194) are I/O and process wiring.
- The unused flags `unlimited_chan` and `dict_size` and the channel capacities `multiplier*concurrency` (finder.go:59, 74) are left out. Capacity only affects blocking, which `wouldBlock` abstracts.
- The "results are partial" message at the end of `run` (finder.go:126-129) is output only.
