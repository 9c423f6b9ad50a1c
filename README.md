# Bank transaction scraper: pool scheduler and injected script

This project models the core of a scraper for a paginated listing of bank
transactions, written in JavaScript with Puppeteer (`index.js`). The scraper
opens a fixed number of browser tabs. It loads every page of the listing
through a shared pool of those tabs. In each loaded page it injects a script
that waits until the transaction table appears and then returns the table's
rows as records. The table appears either in the element `#dvTable` or in
the body of an iframe `#fm` that is inserted later.

The model has four parts:

- `extraction.dfy` (module `Extraction`): `parseTable`. It turns the `tr`
  rows of the table into transaction records (account, transaction, amount,
  currency) and drops the header row. A row with fewer than three cells
  makes it throw.
- `readiness.dfy` (module `Readiness`): the readiness checks
  `isDvTableReady`, `isFmReady` and `isReady`, and `parseDom`. Also the
  promise the script returns, its `resolveIfReady` check, and the iframe
  watcher that attaches that check to the body of a newly inserted `#fm`.
  - The closures' shared state is the class `Injection`. Its methods change
    that state in place, as the listeners do.
  - Each method is proved equal to a pure step function on a `Watch` value.
  - Lemmas over sequences of DOM mutations state when the promise settles
    and how the listeners evolve.
- `url_generation.dfy` (module `UrlGeneration`): the page URLs
  `${URL}?start=${i * PAGE_SIZE}`. Decimal printing comes with its inverse
  and a round-trip proof, and no URL is generated twice.
- `scheduler.dfy` (module `Scheduler`): `FetcherPool`, whose fields are a
  stack of idle tabs, a FIFO queue of waiting URLs and the list of records.
  - `_addUrl` runs on a single-threaded event loop, so it is split into two
    atomic events: `AddUrl` (up to its first `await`) and `Resume` (what
    runs once a fetch has produced its records).
  - The class methods are proved equal to pure steps on a `Pool` value,
    which adds ghost bookkeeping: the URL each claimed tab is fetching, and
    the finished URLs.
  - Trace lemmas cover any interleaving of additions and finished fetches.
    Tabs are never claimed twice. Every added URL is waiting, in flight or
    done. The queue is first-in first-out. `Promise.all` in `run` resolves
    exactly when one fetch per added URL has finished, and some order of
    finishing fetches always gets there. When `run` returns, every page has
    been fetched exactly once, with the records in the order the fetches
    finished. All of this assumes every fetch succeeds (see "Left out").

`wrappers.dfy` holds the `Option` and `Result` datatypes.

## Model

| member | source | states |
|---|---|---|
| Extraction.Substr | index.js:83 | `substr(start)` with no length gives a suffix of the string: a negative start counts back from the end and is clamped at 0, and a start past the end gives "" |
| Extraction.Currency | index.js:83 | the currency is the last character of the amount cell, and it is empty exactly when the cell is empty |
| Extraction.RecordOf | index.js:79-84 | the record pushed for one row: account and transaction from the first two cells, amount and currency from the third; its use is stated by `Records` and `ParsedRecords` |
| Extraction.Shift | index.js:87 | `results.shift()`: all but the first element, nothing for an empty list; its effect is stated by `ParsedRecords` |
| Extraction.Records | index.js:78-85 | one record per row, in row order, built from the row's first three cells |
| Extraction.FirstShortRow | index.js:80-82 | the row where `tr.children[k]` is first undefined: every earlier row has three cells and this one does not |
| Extraction.ParsedRecords | index.js:76-89 | parsing succeeds exactly when every row has three cells; otherwise the error names the first short row (the header counts, since the loop runs before `shift`); on success record k comes from row k + 1, so the header is dropped |
| Extraction.ParseTable | index.js:76-89 | the loop that pushes a record per row and then shifts the header off computes `ParsedRecords`, including the error at the first short row |
| Extraction.TwoRowExample | index.js:76-89 | a header and two data rows give two records, with currencies "D" and "R" taken from "10.5USD" and "-3.0EUR" |
| Readiness.IsDvTableReady | index.js:71 | `isDvTableReady()`: `#dvTable` has children |
| Readiness.FrameReadable | index.js:72 | `isFmReady()` can be evaluated: there is no `$fm`, so `&&` stops, or its body can be read |
| Readiness.IsFmReady | index.js:72 | `isFmReady()`: the recorded `$fm` exists and its body has children |
| Readiness.CheckThrows | index.js:73 | `isReady()` throws exactly when `#dvTable` has no children and the recorded `$fm`'s body cannot be read |
| Readiness.IsReady | index.js:73 | `isReady()`: `#dvTable` is ready, else `$fm` is; its outcomes are stated by `ParseDom` and the settlement lemmas |
| Readiness.ParseDom | index.js:92-96 | `parseDom` returns a value exactly when `isReady()` holds; `#dvTable` wins when it has children; otherwise the rows come from the recorded iframe's body |
| Readiness.AfterCheck | index.js:99 | the effect of `resolveIfReady()` on the promise: a throw rejects it only inside the executor, a ready page resolves it with `parseDom()`, and only the first settlement counts; stated by the settlement lemmas below |
| Readiness.AfterWatch | index.js:105-114 | the effect of the iframe watcher: it looks `#fm` up only while no `$fm` is recorded, and records a new one and listens on its body unless reading the body throws; stated by the listener lemmas below |
| Readiness.InjectionResolvesIfReady | index.js:99-117 | at injection the promise resolves exactly when the page is ready and its rows parse, with what `parseDom` returns; it stays pending exactly when the check neither throws nor finds the page ready; no iframe listener exists yet |
| Readiness.BodyMutationResolvesWhenReady | index.js:102-114 | on a body mutation a pending promise resolves exactly when the check finds the page ready (using the `$fm` recorded before the mutation) and the rows parse; an error thrown by a listener never rejects it |
| Readiness.FrameMutationResolvesWhenReady | index.js:112 | on a mutation inside an iframe body, a pending promise resolves exactly when that body has the listener and the check finds the page ready and the rows parse; it is never rejected and the listeners are unchanged |
| Readiness.ListenersNeverReject | index.js:99-114 | over any sequence of mutations a promise that is not rejected never becomes rejected: only the check inside the executor can reject |
| Readiness.NeverReadyStaysPending | index.js:99-114 | if no snapshot has children in `#dvTable` or in a readable iframe body, a pending promise stays pending over any sequence of mutations |
| Readiness.InjectedNeverReadyStaysPending | index.js:63-117 | a page that is not ready at injection, whose `#fm` can be read, and that never becomes ready, leaves the promise returned to `page.evaluate` pending forever |
| Readiness.NewFrameFoundOneMutationLate | index.js:102-114 | an already filled iframe is missed by the check of the mutation that inserts it, because that check runs before the watcher; the watcher records it, and the next mutation of its body resolves the promise with its rows |
| Readiness.AfterMutationKeepsListeners | index.js:105-114 | one mutation keeps at most one iframe listener, on the recorded `$fm`; once `$fm` is set it is never replaced |
| Readiness.ObserveKeepsListeners | index.js:105-114 | over any sequence of mutations at most one iframe gets a listener, and a recorded `$fm` and its listener never change |
| Readiness.ListenersFromInjection | index.js:68-114 | from injection on at most one iframe gets a listener; an iframe already present when the script is injected never gets one |
| Readiness.SettledIsFinal | index.js:99-117 | once the promise is resolved or rejected, no later mutation changes its outcome |
| Readiness.Injection.constructor | index.js:63-117 | the script's state after injection: `$fm` looked up, no listener, and the check run inside the promise executor |
| Readiness.Injection.ResolveIfReady | index.js:99 | `resolveIfReady` updates the promise exactly as the pure check step does |
| Readiness.Injection.WatchFrame | index.js:105-114 | the watcher records a new `#fm` and listens on its body, unless reading that body throws first |
| Readiness.Injection.OnBodyMutation | index.js:102-114 | a body mutation runs the check, then the watcher, and keeps the listener invariant |
| Readiness.Injection.OnFrameMutation | index.js:112 | a mutation inside an iframe body runs the check only if that body has the listener |
| UrlGeneration.Decimal | index.js:146 | a template literal prints a number as a non-empty string of decimal digits with no leading zero |
| UrlGeneration.DecimalRoundTrip | index.js:146 | reading back the printed digits gives the number |
| UrlGeneration.PageUrl | index.js:146 | the URL of page i, `${URL}?start=${i * PAGE_SIZE}`; `PageUrlRoundTrip` states that it carries its offset |
| UrlGeneration.PageUrls | index.js:145-147 | the URLs the `map` makes, page 0 first; `PageUrlsDistinct` states their number and that they are distinct |
| UrlGeneration.StartOf | index.js:146 | reading an offset back from a URL succeeds only on the base followed by `?start=` |
| UrlGeneration.PageUrlRoundTrip | index.js:146 | the URL of page i carries the offset `i * PAGE_SIZE` |
| UrlGeneration.PageUrlsDistinct | index.js:145-147 | the `map` makes `PAGE_COUNT` URLs, and with a positive page size no two are equal |
| Scheduler.AddUrlStep | index.js:165-184 | the part of `_addUrl` before its first `await`: pop the top idle tab and claim it for the URL, or push the URL on the queue; stated by `AddUrlKeepsInv`, `AddUrlAccounts` and `AddingToFreshPool` |
| Scheduler.ResumeStep | index.js:172-179 | the rest of `_addUrl` once the fetch resolves: append the records, push the tab back, and add the head of the queue if any; stated by `ResumeReusesTab`, `ResumeKeepsInv` and `ResumeAccounts` |
| Scheduler.AddUrlKeepsInv | index.js:165-184 | adding a URL keeps the pool invariant: idle and claimed tabs are disjoint and together are all tabs, idle tabs are distinct, and URLs wait only when no tab is idle |
| Scheduler.ResumeKeepsInv | index.js:172-179 | finishing a fetch keeps the pool invariant |
| Scheduler.ResumeReusesTab | index.js:172-179 | finishing a fetch appends exactly its records and marks its URL done; if URLs wait, the head of the queue starts on the tab just released; otherwise that tab goes back on the stack |
| Scheduler.QueuedMeansAllBusy | index.js:167-183 | while a URL waits, every tab is claimed |
| Scheduler.TabCount | index.js:140-142 | idle tabs plus claimed tabs number `WORKER_COUNT` |
| Scheduler.QuiescentIsDrained | index.js:145-151 | when no fetch runs, every tab is idle and, given at least one tab, no URL waits |
| Scheduler.AddUrlAccounts | index.js:165-184 | adding a URL puts it in the queue or in flight: the multiset of waiting, in-flight and done URLs gains exactly that URL |
| Scheduler.ResumeAccounts | index.js:172-179 | finishing a fetch moves URLs between waiting, in flight and done, and loses or gains none |
| Scheduler.StepAccounts | index.js:165-184 | one event keeps the invariant, accounts for its URL, appends the records of a finished fetch and marks one URL done per finish |
| Scheduler.RunAccounts | index.js:165-184 | over any run the invariant holds; every added URL is waiting, in flight or done exactly as often as it was added; the records are those of the finished fetches in finishing order; each finish marks one URL done |
| Scheduler.RunKeepsUrls | index.js:165-184 | over any run the invariant holds and the URL multiset gains exactly the added URLs |
| Scheduler.RunCollects | index.js:172-175 | over any run the records are the finished fetches' records, in order, and each finish marks one URL done |
| Scheduler.QueueIsFifo | index.js:177-183 | the queue is first-in first-out: the URLs shifted out are, in order, a prefix of those that were in it or pushed onto it, and the rest still wait |
| Scheduler.AddingToFreshPool | index.js:165-184 | adding URLs to a fresh pool claims tabs from the top of the stack down, one per URL in order, and queues the URLs left over, in order |
| Scheduler.DefaultRunStartsThirty | index.js:43-53 | with the default settings, 30 pages start at once, 70 wait, and no tab is idle |
| Scheduler.QuiescentRun | index.js:145-151 | any run from a fresh pool that ends with no fetch running has an empty queue, every tab idle, every added URL done as often as it was added, and the records of the finished fetches |
| Scheduler.Drains | index.js:145-151 | from a fresh pool with at least one tab, no fetch is running (the moment `Promise.all` resolves) exactly when as many fetches have finished as URLs were added |
| Scheduler.RunFinishesWithEveryPage | index.js:145-151 | after every page is added and then only fetches finish, no fetch runs exactly when one fetch per page has finished |
| Scheduler.Drain | index.js:172-179 | one order in which every running fetch finishes; `DrainFinishes` states that it can happen and ends with no fetch running |
| Scheduler.DrainFinishes | index.js:172-179 | from any pool that keeps the invariant, the fetches `Drain` finishes can happen in that order, and afterwards no fetch runs |
| Scheduler.RunCanFinish | index.js:129-152 | for any page count and at least one tab, some order of finishing fetches after every page is added leaves none running, after exactly one finish per page, so `run` can return |
| Scheduler.RunFetchesEveryPageOnce | index.js:129-152 | `run` adds every page URL, then fetches finish in any order; once none runs, each page was fetched exactly once, the queue is empty, every tab is idle, and the result is the fetched records in the order the fetches finished |
| Scheduler.FetcherPool.constructor | index.js:129-142 | the pool `run` builds: an empty queue, no records, and `WORKER_COUNT` idle tabs |
| Scheduler.FetcherPool.AddUrl | index.js:165-184 | with an idle tab, pop it and start the fetch on it; otherwise queue the URL; the invariant is kept |
| Scheduler.FetcherPool.Resume | index.js:172-179 | append the records, push the tab back, and if URLs wait, shift the head and add it, which claims the same tab again |
| Scheduler.FetcherPool.AddPages | index.js:145-147 | the `map` in `run` adds every page URL in page order, and the pool ends as that sequence of additions leaves it |

## Left out

- Browser automation is not modelled: launching the browser, opening tabs, `page.goto`, `page.evaluate` and `browser.close`. A fetch that succeeds is modelled by its records, which are an input of `Resume`.
- Scheduler.RunFetchesEveryPageOnce: covers only runs in which every fetch succeeds. In the source, `page.goto` or `page.evaluate` can reject, for example when the injected script's promise is rejected. Then the `await` in `_addUrl` throws: the tab is never pushed back (it leaks), that tab's chain stops pulling from the queue, and `Promise.all` in `run` rejects, so `run` never returns the transactions. The events `Submit` and `Complete` have no failure case, so none of the run lemmas (`RunAccounts`, `Drains`, `RunCanFinish`) describe such a run.
- The tab's `dialog` handler in `_buildPage` (dismiss, then click `#btnGenerate`) acts on the remote page only. It appears as page snapshots that change between mutations.
- `parseFloat` is not modelled, because floating-point parsing is out of scope. The amount is kept as the cell text it is read from.
- Number formatting is modelled only as plain decimal digits. JavaScript switches to exponent notation at 1e21 and above, which the model does not capture.
- The real DOM and event dispatch are abstracted. A page is a snapshot per mutation: how many children `#dvTable` has, what `getElementById("fm")` returns, and which iframe bodies can be read. Listeners run in registration order.
- `#dvTable` is assumed to exist. If it were missing, `isDvTableReady` would throw on every check.
- Readiness.AfterFrameMutation: the listener is tied to the iframe, not to one body element. The source attaches it to the body that exists when the watcher runs. If the iframe's document is later replaced (the initial about:blank document giving way to its `src`, or `document.open`), mutations of the new body do not fire it. The model assumes the body that got the listener is never replaced, so it runs the check on mutations of any later body of that iframe.
- Readiness.NewFrameFoundOneMutationLate: rests on the same assumption. If the listened body were replaced, the promise would stay pending until a later mutation of the main document body.
- Extraction.Substr and Extraction.Currency: characters are Unicode scalar values, not UTF-16 code units. For a cell ending in a character outside the Basic Multilingual Plane, `substr(-1)` in the source returns a lone low surrogate, while the model returns the whole character.
- UrlGeneration.PageUrl and UrlGeneration.PageUrlsDistinct: offsets are exact unbounded integers. In the source `i * PAGE_SIZE` is a double, rounded above 2^53, and `Array(n)` throws a RangeError for n of 2^32 or more. The model covers neither.
- An iframe whose `contentWindow` is null (a detached frame) is treated like one whose body cannot be read.
- Real concurrency and `Promise.all` are replaced by an interleaving of atomic events. `run` is stated as a trace lemma (`Scheduler.RunFetchesEveryPageOnce`) rather than a method, because its waiting on fetches is foreign.
- Scheduler.FetcherPool.Resume: requires the pool invariant and that the tab is claimed. In the source only a claimed tab's continuation can run, and every reachable pool satisfies the invariant.
- Scheduler.RunFetchesEveryPageOnce: assumes at least one tab and a positive page size. With no tab, every URL stays queued and `run` returns no records (`Scheduler.QuiescentIsDrained` states the tab count in that case). With a page size of 0, every URL is the same.
- Reading `process.argv`, the console output and `JSON.stringify` in `main` are I/O and are left out. Only the constants `main` passes to `run` are modelled.
