/**
 * `FetcherPool`: a fixed set of browser tabs shared by an unbounded list of
 * URLs. Idle tabs are a stack (`pages`, `pop`/`push`), waiting URLs a queue
 * (`urls`, `push`/`shift`), parsed records an append-only list
 * (`transactions`).
 *
 * The pool runs on a single-threaded event loop, and `_addUrl` does not
 * suspend between testing `pages.length` and popping a tab. Its work is
 * therefore modelled as two atomic events: `AddUrl`, the part of `_addUrl`
 * that runs before its first `await`, and `Resume`, the part that runs once
 * the fetch of a claimed tab has produced its records. The fetch itself
 * (navigation and the injected script) is foreign; its records are an input
 * of `Resume`. The ghost part of the state records which URL each claimed
 * tab is fetching and which URLs are done.
 */
module Scheduler {
  import opened Wrappers
  import opened Extraction
  import opened UrlGeneration

  /** The configuration `main` passes to `run`. */
  const DefaultPageSize: nat := 50
  const DefaultPageCount: nat := 100
  const DefaultWorkerCount: nat := 30

  /** A browser tab, identified by its position in the array `run` builds. */
  type Tab = nat

  type Url = string

  /**
   * The pool's state: idle tabs (top of the stack last), waiting URLs (head
   * first), the records collected so far; and, as bookkeeping, the URL each
   * claimed tab is fetching and the URLs whose fetch has finished.
   */
  datatype Pool = Pool(
    pages: seq<Tab>,
    urls: seq<Url>,
    transactions: seq<Transaction>,
    inflight: map<Tab, Url>,
    done: seq<Url>)

  /** The tabs `Promise.all` yields, in creation order. */
  function Tabs(n: nat): seq<Tab> {
    seq(n, i requires 0 <= i < n => i)
  }

  /** The pool once `run` has created its tabs and before any URL is added. */
  function Start(workerCount: nat): Pool {
    Pool(Tabs(workerCount), [], [], map[], [])
  }

  /**
   * `_addUrl(url)` up to its first `await`: claim the tab on top of the stack
   * and start fetching, or queue the URL when no tab is idle.
   */
  function AddUrlStep(p: Pool, url: Url): Pool {
    if |p.pages| > 0 then
      var tab := p.pages[|p.pages| - 1];
      p.(pages := p.pages[..|p.pages| - 1], inflight := p.inflight[tab := url])
    else
      p.(urls := p.urls + [url])
  }

  /**
   * The rest of `_addUrl` once the fetch on `tab` resolves: append its
   * records, give the tab back, and add the head of the queue, if any.
   */
  function ResumeStep(p: Pool, tab: Tab, records: seq<Transaction>): Pool
    requires tab in p.inflight
  {
    var released := p.(transactions := p.transactions + records,
                       pages := p.pages + [tab],
                       inflight := p.inflight - {tab},
                       done := p.done + [p.inflight[tab]]);
    if |released.urls| > 0 then
      AddUrlStep(released.(urls := released.urls[1..]), released.urls[0])
    else
      released
  }

  /** The tabs of a stack, as a set. */
  function Elems(s: seq<Tab>): set<Tab> {
    set t | t in s
  }

  /** No tab is on the stack twice. */
  predicate NoDup(s: seq<Tab>) {
    forall i, j :: 0 <= i < j < |s| ==> s[i] != s[j]
  }

  /**
   * The pool's invariant: each of the `workerCount` tabs is either idle, and
   * on the stack once, or claimed by exactly one fetch, never both; and URLs
   * wait only while no tab is idle.
   */
  predicate Inv(p: Pool, workerCount: nat) {
    && NoDup(p.pages)
    && Elems(p.pages) !! p.inflight.Keys
    && Elems(p.pages) + p.inflight.Keys == Elems(Tabs(workerCount))
    && (|p.urls| > 0 ==> p.pages == [])
  }

  lemma AllTabs(workerCount: nat, t: Tab)
    ensures t in Elems(Tabs(workerCount)) <==> t < workerCount
  {
    if t < workerCount {
      assert Tabs(workerCount)[t] == t;
    }
  }

  lemma StartIsValid(workerCount: nat)
    ensures Inv(Start(workerCount), workerCount)
  {
  }

  /** Popping the top of a stack without duplicates removes exactly that tab. */
  lemma Pop(s: seq<Tab>)
    requires NoDup(s) && s != []
    ensures NoDup(s[..|s| - 1])
    ensures Elems(s) == Elems(s[..|s| - 1]) + {s[|s| - 1]}
    ensures s[|s| - 1] !in Elems(s[..|s| - 1])
  {
    assert s == s[..|s| - 1] + [s[|s| - 1]];
  }

  /** Pushing a tab not on the stack adds exactly that tab. */
  lemma Push(s: seq<Tab>, t: Tab)
    requires NoDup(s) && t !in Elems(s)
    ensures NoDup(s + [t])
    ensures Elems(s + [t]) == Elems(s) + {t}
  {
  }

  /** Adding a URL keeps the invariant. */
  lemma AddUrlKeepsInv(p: Pool, workerCount: nat, url: Url)
    requires Inv(p, workerCount)
    ensures Inv(AddUrlStep(p, url), workerCount)
  {
    if p.pages != [] {
      Pop(p.pages);
    }
  }

  /** Finishing a fetch keeps the invariant. */
  lemma ResumeKeepsInv(p: Pool, workerCount: nat, tab: Tab, records: seq<Transaction>)
    requires Inv(p, workerCount) && tab in p.inflight
    ensures Inv(ResumeStep(p, tab, records), workerCount)
  {
    var released := p.(transactions := p.transactions + records,
                       pages := p.pages + [tab],
                       inflight := p.inflight - {tab},
                       done := p.done + [p.inflight[tab]]);
    Push(p.pages, tab);
    assert released.inflight.Keys == p.inflight.Keys - {tab};
    if |p.urls| > 0 {
      AddUrlKeepsInv(released.(urls := []), workerCount, p.urls[0]);
    }
  }

  /**
   * `Resume` appends exactly the fetched records and marks the tab's URL
   * done; when URLs wait, the head of the queue starts at once on the tab
   * just released, otherwise the tab goes back on the stack.
   */
  lemma ResumeReusesTab(p: Pool, tab: Tab, records: seq<Transaction>)
    requires tab in p.inflight
    ensures ResumeStep(p, tab, records).transactions == p.transactions + records
    ensures ResumeStep(p, tab, records).done == p.done + [p.inflight[tab]]
    ensures |p.urls| > 0 ==>
      && ResumeStep(p, tab, records).pages == p.pages
      && ResumeStep(p, tab, records).urls == p.urls[1..]
      && ResumeStep(p, tab, records).inflight == p.inflight[tab := p.urls[0]]
    ensures |p.urls| == 0 ==>
      && ResumeStep(p, tab, records).pages == p.pages + [tab]
      && ResumeStep(p, tab, records).urls == p.urls
      && ResumeStep(p, tab, records).inflight == p.inflight - {tab}
  {
    if |p.urls| > 0 {
      var q := ResumeStep(p, tab, records);
      assert (p.pages + [tab])[..|p.pages|] == p.pages;
      assert q.inflight == (p.inflight - {tab})[tab := p.urls[0]];
    }
  }

  /** While URLs wait, every tab is busy: the queue can only drain as fetches finish. */
  lemma QueuedMeansAllBusy(p: Pool, workerCount: nat)
    requires Inv(p, workerCount) && |p.urls| > 0
    ensures forall t: Tab :: t < workerCount ==> t in p.inflight
  {
    forall t: Tab | t < workerCount
      ensures t in p.inflight
    {
      AllTabs(workerCount, t);
    }
  }

  lemma {:induction false} DistinctCard(s: seq<Tab>)
    requires NoDup(s)
    ensures |Elems(s)| == |s|
  {
    if s == [] {
      assert Elems(s) == {};
    } else {
      Pop(s);
      DistinctCard(s[..|s| - 1]);
    }
  }

  /** Idle and claimed tabs together are exactly the `workerCount` tabs. */
  lemma TabCount(p: Pool, workerCount: nat)
    requires Inv(p, workerCount)
    ensures |p.pages| + |p.inflight| == workerCount
  {
    DistinctCard(p.pages);
    assert NoDup(Tabs(workerCount));
    DistinctCard(Tabs(workerCount));
  }

  /**
   * When no fetch is running, no URL waits and every tab is idle (given at
   * least one tab); with no tab at all, every URL added stays queued.
   */
  lemma QuiescentIsDrained(p: Pool, workerCount: nat)
    requires Inv(p, workerCount) && p.inflight == map[]
    ensures |p.pages| == workerCount
    ensures workerCount > 0 ==> p.urls == []
  {
    TabCount(p, workerCount);
  }

  /** URLs in flight on tabs below `n`, as a multiset. */
  ghost function Flying(m: map<Tab, Url>, n: nat): multiset<Url> {
    if n == 0 then multiset{}
    else Flying(m, n - 1) + (if n - 1 in m then multiset{m[n - 1]} else multiset{})
  }

  lemma {:induction false} FlyingAdd(m: map<Tab, Url>, n: nat, t: Tab, u: Url)
    requires t !in m
    ensures Flying(m[t := u], n) == Flying(m, n) + (if t < n then multiset{u} else multiset{})
  {
    if n > 0 {
      FlyingAdd(m, n - 1, t, u);
    }
  }

  lemma FlyingRemove(m: map<Tab, Url>, n: nat, t: Tab)
    requires t in m
    ensures Flying(m - {t}, n) + (if t < n then multiset{m[t]} else multiset{}) == Flying(m, n)
  {
    assert (m - {t})[t := m[t]] == m;
    FlyingAdd(m - {t}, n, t, m[t]);
  }

  /** Every URL added is waiting, in flight or done: as a multiset. */
  ghost function Accounted(p: Pool, workerCount: nat): multiset<Url> {
    multiset(p.urls) + Flying(p.inflight, workerCount) + multiset(p.done)
  }

  lemma AddUrlAccounts(p: Pool, workerCount: nat, url: Url)
    requires Inv(p, workerCount)
    ensures Accounted(AddUrlStep(p, url), workerCount) == Accounted(p, workerCount) + multiset{url}
  {
    if |p.pages| > 0 {
      FlyingAdd(p.inflight, workerCount, p.pages[|p.pages| - 1], url);
    }
  }

  lemma ResumeAccounts(p: Pool, workerCount: nat, tab: Tab, records: seq<Transaction>)
    requires Inv(p, workerCount) && tab in p.inflight
    ensures Accounted(ResumeStep(p, tab, records), workerCount) == Accounted(p, workerCount)
  {
    var released := p.(transactions := p.transactions + records,
                       pages := p.pages + [tab],
                       inflight := p.inflight - {tab},
                       done := p.done + [p.inflight[tab]]);
    FlyingRemove(p.inflight, workerCount, tab);
    assert Accounted(released, workerCount) == Accounted(p, workerCount);
    if |p.urls| > 0 {
      var rest := released.(urls := p.urls[1..]);
      assert p.urls == [p.urls[0]] + p.urls[1..];
      FlyingAdd(rest.inflight, workerCount, tab, p.urls[0]);
    }
  }

  /** What can happen next: a URL is added, or the fetch on a claimed tab finishes. */
  datatype Event = Submit(url: Url) | Complete(tab: Tab, records: seq<Transaction>)

  predicate Enabled(p: Pool, e: Event) {
    e.Complete? ==> e.tab in p.inflight
  }

  function Step(p: Pool, e: Event): Pool
    requires Enabled(p, e)
  {
    match e
    case Submit(url) => AddUrlStep(p, url)
    case Complete(tab, records) => ResumeStep(p, tab, records)
  }

  /** The events can happen in order from `p`: each finish is of a claimed tab. */
  predicate CanRun(p: Pool, evs: seq<Event>)
    decreases |evs|
  {
    evs == [] || (Enabled(p, evs[0]) && CanRun(Step(p, evs[0]), evs[1..]))
  }

  function Run(p: Pool, evs: seq<Event>): Pool
    requires CanRun(p, evs)
    decreases |evs|
  {
    if evs == [] then p else Run(Step(p, evs[0]), evs[1..])
  }

  /** The URLs added by the events, in order. */
  function Submitted(evs: seq<Event>): seq<Url> {
    if evs == [] then []
    else (if evs[0].Submit? then [evs[0].url] else []) + Submitted(evs[1..])
  }

  /** The records of the finished fetches, in order. */
  function Fetched(evs: seq<Event>): seq<Transaction> {
    if evs == [] then []
    else (if evs[0].Complete? then evs[0].records else []) + Fetched(evs[1..])
  }

  function CompleteCount(evs: seq<Event>): nat {
    if evs == [] then 0 else (if evs[0].Complete? then 1 else 0) + CompleteCount(evs[1..])
  }

  /** The URLs the events put in the queue, in order. */
  function Enqueued(p: Pool, evs: seq<Event>): seq<Url>
    requires CanRun(p, evs)
    decreases |evs|
  {
    if evs == [] then []
    else (if evs[0].Submit? && |p.pages| == 0 then [evs[0].url] else [])
         + Enqueued(Step(p, evs[0]), evs[1..])
  }

  /** The URLs the events take out of the queue, in order. */
  function Dequeued(p: Pool, evs: seq<Event>): seq<Url>
    requires CanRun(p, evs)
    decreases |evs|
  {
    if evs == [] then []
    else (if evs[0].Complete? && |p.urls| > 0 then [p.urls[0]] else [])
         + Dequeued(Step(p, evs[0]), evs[1..])
  }

  /**
   * Over any run the tabs are conserved and never claimed twice, every URL
   * added is waiting, in flight or done exactly as often as it was added,
   * each finished fetch marks one URL done, and the records are those of the
   * finished fetches, appended in the order the fetches finished.
   */
  lemma RunAccounts(p: Pool, workerCount: nat, evs: seq<Event>)
    requires Inv(p, workerCount) && CanRun(p, evs)
    ensures Inv(Run(p, evs), workerCount)
    ensures Accounted(Run(p, evs), workerCount) == Accounted(p, workerCount) + multiset(Submitted(evs))
    ensures Run(p, evs).transactions == p.transactions + Fetched(evs)
    ensures |Run(p, evs).done| == |p.done| + CompleteCount(evs)
  {
    RunKeepsUrls(p, workerCount, evs);
    RunCollects(p, evs);
  }

  lemma {:induction false} RunKeepsUrls(p: Pool, workerCount: nat, evs: seq<Event>)
    requires Inv(p, workerCount) && CanRun(p, evs)
    ensures Inv(Run(p, evs), workerCount)
    ensures Accounted(Run(p, evs), workerCount) == Accounted(p, workerCount) + multiset(Submitted(evs))
    decreases |evs|
  {
    if evs != [] {
      var q := Step(p, evs[0]);
      StepAccounts(p, workerCount, evs[0]);
      RunKeepsUrls(q, workerCount, evs[1..]);
      var first := if evs[0].Submit? then [evs[0].url] else [];
      assert Submitted(evs) == first + Submitted(evs[1..]);
      assert multiset(Submitted(evs)) == multiset(first) + multiset(Submitted(evs[1..]));
    }
  }

  lemma {:induction false} RunCollects(p: Pool, evs: seq<Event>)
    requires CanRun(p, evs)
    ensures Run(p, evs).transactions == p.transactions + Fetched(evs)
    ensures |Run(p, evs).done| == |p.done| + CompleteCount(evs)
    decreases |evs|
  {
    if evs != [] {
      var q := Step(p, evs[0]);
      match evs[0] {
        case Submit(url) =>
        case Complete(tab, records) =>
          ResumeReusesTab(p, tab, records);
      }
      RunCollects(q, evs[1..]);
    }
  }

  /** One event keeps the invariant and the bookkeeping of `RunAccounts`. */
  lemma StepAccounts(p: Pool, workerCount: nat, e: Event)
    requires Inv(p, workerCount) && Enabled(p, e)
    ensures Inv(Step(p, e), workerCount)
    ensures Accounted(Step(p, e), workerCount)
         == Accounted(p, workerCount) + (if e.Submit? then multiset{e.url} else multiset{})
    ensures Step(p, e).transactions == p.transactions + (if e.Complete? then e.records else [])
    ensures |Step(p, e).done| == |p.done| + (if e.Complete? then 1 else 0)
  {
    match e
    case Submit(url) =>
      AddUrlKeepsInv(p, workerCount, url);
      AddUrlAccounts(p, workerCount, url);
    case Complete(tab, records) =>
      ResumeKeepsInv(p, workerCount, tab, records);
      ResumeAccounts(p, workerCount, tab, records);
      ResumeReusesTab(p, tab, records);
  }

  /**
   * The queue is first-in first-out: the URLs taken out of it are, in order,
   * a prefix of the URLs that were in it and were put in it, and the rest is
   * what still waits.
   */
  lemma {:induction false} QueueIsFifo(p: Pool, evs: seq<Event>)
    requires CanRun(p, evs)
    ensures p.urls + Enqueued(p, evs) == Dequeued(p, evs) + Run(p, evs).urls
    decreases |evs|
  {
    if evs != [] {
      var q := Step(p, evs[0]);
      QueueIsFifo(q, evs[1..]);
      var inp := if evs[0].Submit? && |p.pages| == 0 then [evs[0].url] else [];
      var out := if evs[0].Complete? && |p.urls| > 0 then [p.urls[0]] else [];
      QueueStep(p, evs[0]);
      assert Enqueued(p, evs) == inp + Enqueued(q, evs[1..]);
      assert Dequeued(p, evs) == out + Dequeued(q, evs[1..]);
      Regroup(p.urls, inp, Enqueued(q, evs[1..]), out, q.urls, Dequeued(q, evs[1..]), Run(q, evs[1..]).urls);
    }
  }

  /** Sequence bookkeeping for one step of `QueueIsFifo`. */
  lemma Regroup(a: seq<Url>, inp: seq<Url>, e: seq<Url>, out: seq<Url>, b: seq<Url>, d: seq<Url>, r: seq<Url>)
    requires a + inp == out + b && b + e == d + r
    ensures a + (inp + e) == (out + d) + r
  {
    calc {
      a + (inp + e);
      (a + inp) + e;
      (out + b) + e;
      out + (b + e);
      out + (d + r);
      (out + d) + r;
    }
  }

  /** One event adds at most one URL at the back of the queue or takes one from its front. */
  lemma QueueStep(p: Pool, e: Event)
    requires Enabled(p, e)
    ensures p.urls + (if e.Submit? && |p.pages| == 0 then [e.url] else [])
         == (if e.Complete? && |p.urls| > 0 then [p.urls[0]] else []) + Step(p, e).urls
  {
    match e
    case Submit(url) =>
    case Complete(tab, records) =>
      ResumeReusesTab(p, tab, records);
      if |p.urls| > 0 {
        assert p.urls == [p.urls[0]] + p.urls[1..];
      }
  }

  /** Running a single enabled event is taking that step. */
  lemma RunOne(p: Pool, e: Event)
    requires Enabled(p, e)
    ensures CanRun(p, [e]) && Run(p, [e]) == Step(p, e)
  {
    assert [e][1..] == [];
  }

  /** Adding one more URL at the end of a list adds one more event at the end. */
  lemma SubmitsSnoc(urls: seq<Url>, i: nat)
    requires i < |urls|
    ensures Submits(urls[..i + 1]) == Submits(urls[..i]) + [Submit(urls[i])]
  {
  }

  lemma {:induction false} RunAppend(p: Pool, a: seq<Event>, b: seq<Event>)
    requires CanRun(p, a)
    ensures CanRun(p, a + b) <==> CanRun(Run(p, a), b)
    ensures CanRun(p, a + b) ==> Run(p, a + b) == Run(Run(p, a), b)
    decreases |a|
  {
    if a == [] {
      assert a + b == b;
    } else {
      assert (a + b)[0] == a[0] && (a + b)[1..] == a[1..] + b;
      RunAppend(Step(p, a[0]), a[1..], b);
    }
  }

  /** Adding each URL of the list, in order. */
  function Submits(urls: seq<Url>): seq<Event> {
    seq(|urls|, i requires 0 <= i < |urls| => Submit(urls[i]))
  }

  lemma {:induction false} SubmitsOnly(urls: seq<Url>)
    ensures Submitted(Submits(urls)) == urls && Fetched(Submits(urls)) == [] && CompleteCount(Submits(urls)) == 0
    decreases |urls|
  {
    if urls != [] {
      assert Submits(urls)[1..] == Submits(urls[1..]);
      SubmitsOnly(urls[1..]);
    }
  }

  function Min(a: nat, b: nat): nat {
    if a < b then a else b
  }

  /**
   * The pool after adding `urls` to a fresh pool of `workerCount` tabs: the
   * first URLs claim the tabs from the top of the stack down, one each, in
   * order, and the URLs left over once every tab is claimed wait in order.
   */
  ghost predicate FreshAfter(q: Pool, workerCount: nat, urls: seq<Url>) {
    var k := Min(|urls|, workerCount);
    && q.pages == Tabs(workerCount - k)
    && q.urls == urls[k..]
    && (forall t :: t in q.inflight <==> workerCount - k <= t < workerCount)
    && (forall i :: 0 <= i < k ==> q.inflight[workerCount - 1 - i] == urls[i])
    && q.transactions == [] && q.done == []
  }

  /** Adding one more URL while a tab is idle claims the next tab down. */
  lemma FreshClaims(q: Pool, workerCount: nat, urls: seq<Url>, u: Url)
    requires FreshAfter(q, workerCount, urls) && |urls| < workerCount
    ensures FreshAfter(AddUrlStep(q, u), workerCount, urls + [u])
  {
    var k := |urls|;
    var r := AddUrlStep(q, u);
    assert |q.pages| == workerCount - k > 0;
    assert q.pages[workerCount - k - 1] == workerCount - k - 1;
    assert r.pages == Tabs(workerCount - k - 1);
    assert r.inflight == q.inflight[workerCount - k - 1 := u];
    forall i | 0 <= i < k + 1
      ensures r.inflight[workerCount - 1 - i] == (urls + [u])[i]
    {
      if i < k {
        assert workerCount - 1 - i != workerCount - k - 1;
      }
    }
  }

  /** Adding one more URL once every tab is claimed queues it. */
  lemma FreshQueues(q: Pool, workerCount: nat, urls: seq<Url>, u: Url)
    requires FreshAfter(q, workerCount, urls) && |urls| >= workerCount
    ensures FreshAfter(AddUrlStep(q, u), workerCount, urls + [u])
  {
    assert q.pages == [];
    assert (urls + [u])[workerCount..] == urls[workerCount..] + [u];
    forall i | 0 <= i < workerCount
      ensures (urls + [u])[i] == urls[i]
    {
    }
  }

  /** Adding URLs to a fresh pool leads to the pool `FreshAfter` describes. */
  lemma {:induction false} AddingToFreshPool(workerCount: nat, urls: seq<Url>)
    ensures CanRun(Start(workerCount), Submits(urls))
    ensures FreshAfter(Run(Start(workerCount), Submits(urls)), workerCount, urls)
    decreases |urls|
  {
    var w := workerCount;
    if urls == [] {
      assert Submits(urls) == [];
      assert urls[0..] == urls;
    } else {
      var init := urls[..|urls| - 1];
      var u := urls[|urls| - 1];
      AddingToFreshPool(w, init);
      var q0 := Run(Start(w), Submits(init));
      SubmitsSnoc(urls, |urls| - 1);
      assert urls[..|urls|] == urls;
      assert init + [u] == urls;
      RunOne(q0, Submit(u));
      RunAppend(Start(w), Submits(init), [Submit(u)]);
      if |init| < w {
        FreshClaims(q0, w, init, u);
      } else {
        FreshQueues(q0, w, init, u);
      }
    }
  }

  /** With the default configuration, 30 pages start at once and 70 wait. */
  lemma DefaultRunStartsThirty(base: string)
    ensures CanRun(Start(DefaultWorkerCount), Submits(PageUrls(base, DefaultPageSize, DefaultPageCount)))
    ensures
      var q := Run(Start(DefaultWorkerCount), Submits(PageUrls(base, DefaultPageSize, DefaultPageCount)));
      |q.inflight| == 30 && |q.urls| == 70 && q.pages == []
  {
    var urls := PageUrls(base, DefaultPageSize, DefaultPageCount);
    AddingToFreshPool(DefaultWorkerCount, urls);
    var q := Run(Start(DefaultWorkerCount), Submits(urls));
    StartIsValid(DefaultWorkerCount);
    SubmitsOnly(urls);
    RunAccounts(Start(DefaultWorkerCount), DefaultWorkerCount, Submits(urls));
    TabCount(q, DefaultWorkerCount);
  }

  lemma {:induction false} DistinctOccurs(s: seq<Url>, x: Url)
    requires forall i, j :: 0 <= i < j < |s| ==> s[i] != s[j]
    ensures multiset(s)[x] <= 1
    decreases |s|
  {
    if s != [] {
      DistinctOccurs(s[1..], x);
      assert s == [s[0]] + s[1..];
      if s[0] == x {
        assert x !in s[1..];
      }
    }
  }

  lemma RepeatOccurs(s: seq<Url>, i: nat, j: nat)
    requires i < j < |s| && s[i] == s[j]
    ensures multiset(s)[s[i]] >= 2
  {
    assert s == s[..j] + [s[j]] + s[j + 1..];
    assert s[i] in s[..j];
  }

  /**
   * The whole of `run`: every generated page is added, then fetches finish in
   * any order. Once no fetch is running, no URL waits, every tab is idle,
   * every page was fetched once and only once, and the records are those of
   * the fetches in the order they finished.
   */
  lemma RunFetchesEveryPageOnce(workerCount: nat, base: string, pageSize: nat, pageCount: nat, completions: seq<Event>)
    requires workerCount > 0 && pageSize > 0
    requires forall i :: 0 <= i < |completions| ==> completions[i].Complete?
    requires CanRun(Start(workerCount), Submits(PageUrls(base, pageSize, pageCount)) + completions)
    requires Run(Start(workerCount), Submits(PageUrls(base, pageSize, pageCount)) + completions).inflight == map[]
    ensures
      var q := Run(Start(workerCount), Submits(PageUrls(base, pageSize, pageCount)) + completions);
      && q.urls == [] && |q.pages| == workerCount
      && multiset(q.done) == multiset(PageUrls(base, pageSize, pageCount))
      && |q.done| == pageCount == |completions|
      && (forall i, j :: 0 <= i < j < |q.done| ==> q.done[i] != q.done[j])
      && q.transactions == Fetched(completions)
  {
    var urls := PageUrls(base, pageSize, pageCount);
    var evs := Submits(urls) + completions;
    var q := Run(Start(workerCount), evs);
    SubmitsOnly(urls);
    SplitCounts(Submits(urls), completions);
    NoneSubmitted(completions);
    assert Submitted(evs) == urls && Fetched(evs) == Fetched(completions)
        && CompleteCount(evs) == |completions|;
    QuiescentRun(workerCount, evs);
    PageUrlsDistinct(base, pageSize, pageCount);
    SameCountsDistinct(q.done, urls);
  }

  /**
   * Any run from a fresh pool that ends with no fetch running has drained
   * the queue, has every tab idle, and has fetched each added URL as often
   * as it was added, one fetch per finish event.
   */
  lemma QuiescentRun(workerCount: nat, evs: seq<Event>)
    requires workerCount > 0
    requires CanRun(Start(workerCount), evs) && Run(Start(workerCount), evs).inflight == map[]
    ensures
      var q := Run(Start(workerCount), evs);
      && q.urls == [] && |q.pages| == workerCount
      && multiset(q.done) == multiset(Submitted(evs))
      && |q.done| == CompleteCount(evs)
      && q.transactions == Fetched(evs)
  {
    var q := Run(Start(workerCount), evs);
    StartIsValid(workerCount);
    FlyingEmpty(workerCount);
    assert Accounted(Start(workerCount), workerCount) == multiset{};
    RunAccounts(Start(workerCount), workerCount, evs);
    QuiescentIsDrained(q, workerCount);
    assert Accounted(q, workerCount) == multiset(q.done);
  }

  /**
   * `Promise.all` in `run` resolves once no fetch is running. From a fresh
   * pool with at least one tab that happens exactly when as many fetches
   * have finished as URLs were added.
   */
  lemma Drains(workerCount: nat, evs: seq<Event>)
    requires workerCount > 0 && CanRun(Start(workerCount), evs)
    ensures Run(Start(workerCount), evs).inflight == map[] <==> CompleteCount(evs) == |Submitted(evs)|
  {
    var q := Run(Start(workerCount), evs);
    StartIsValid(workerCount);
    FlyingEmpty(workerCount);
    assert Accounted(Start(workerCount), workerCount) == multiset{};
    RunAccounts(Start(workerCount), workerCount, evs);
    forall t | t in q.inflight
      ensures t < workerCount
    {
      AllTabs(workerCount, t);
    }
    FlyingSize(q.inflight, workerCount);
    assert |Accounted(q, workerCount)| == |q.urls| + |q.inflight| + |q.done|;
    assert |q.urls| + |q.inflight| + CompleteCount(evs) == |Submitted(evs)|;
    if q.inflight == map[] {
      QuiescentIsDrained(q, workerCount);
    } else {
      var t :| t in q.inflight;
      assert t in q.inflight.Keys;
    }
  }

  /**
   * One way for every running fetch to finish: finish any claimed tab's
   * fetch (here with no records), until none runs.
   */
  ghost function Drain(p: Pool, workerCount: nat): seq<Event>
    requires Inv(p, workerCount)
    decreases |p.urls| + |p.inflight|
  {
    if p.inflight == map[] then []
    else
      var tab :| tab in p.inflight;
      ResumeKeepsInv(p, workerCount, tab, []);
      ResumeShrinks(p, tab, []);
      [Complete(tab, [])] + Drain(ResumeStep(p, tab, []), workerCount)
  }

  /** Finishing a fetch leaves one URL fewer waiting or running. */
  lemma ResumeShrinks(p: Pool, tab: Tab, records: seq<Transaction>)
    requires tab in p.inflight
    ensures |ResumeStep(p, tab, records).urls| + |ResumeStep(p, tab, records).inflight| + 1
         == |p.urls| + |p.inflight|
  {
    ResumeReusesTab(p, tab, records);
    assert p.inflight.Keys == (p.inflight - {tab}).Keys + {tab};
    if |p.urls| > 0 {
      assert p.inflight[tab := p.urls[0]].Keys == p.inflight.Keys;
    }
  }

  /** The fetches `Drain` finishes can happen, and afterwards none runs. */
  lemma {:induction false} DrainFinishes(p: Pool, workerCount: nat)
    requires Inv(p, workerCount)
    ensures forall i :: 0 <= i < |Drain(p, workerCount)| ==> Drain(p, workerCount)[i].Complete?
    ensures CanRun(p, Drain(p, workerCount)) && Run(p, Drain(p, workerCount)).inflight == map[]
    decreases |p.urls| + |p.inflight|
  {
    if p.inflight != map[] {
      var evs := Drain(p, workerCount);
      var tab := evs[0].tab;
      ResumeKeepsInv(p, workerCount, tab, []);
      ResumeShrinks(p, tab, []);
      var q := ResumeStep(p, tab, []);
      assert evs[1..] == Drain(q, workerCount);
      DrainFinishes(q, workerCount);
    }
  }

  /**
   * `run` can return whatever the page count: after every page is added,
   * some order of finishing fetches leaves none running, and that takes
   * exactly one finish per page.
   */
  lemma RunCanFinish(workerCount: nat, base: string, pageSize: nat, pageCount: nat)
    requires workerCount > 0
    ensures CanRun(Start(workerCount), Submits(PageUrls(base, pageSize, pageCount)))
    ensures
      var added := Run(Start(workerCount), Submits(PageUrls(base, pageSize, pageCount)));
      && Inv(added, workerCount)
      && |Drain(added, workerCount)| == pageCount
      && CanRun(Start(workerCount), Submits(PageUrls(base, pageSize, pageCount)) + Drain(added, workerCount))
      && Run(Start(workerCount), Submits(PageUrls(base, pageSize, pageCount)) + Drain(added, workerCount)).inflight == map[]
  {
    var urls := PageUrls(base, pageSize, pageCount);
    AddingToFreshPool(workerCount, urls);
    var added := Run(Start(workerCount), Submits(urls));
    StartIsValid(workerCount);
    RunKeepsUrls(Start(workerCount), workerCount, Submits(urls));
    var completions := Drain(added, workerCount);
    DrainFinishes(added, workerCount);
    RunAppend(Start(workerCount), Submits(urls), completions);
    RunFinishesWithEveryPage(workerCount, base, pageSize, pageCount, completions);
  }

  /**
   * After every page is added and then only fetches finish, no fetch runs
   * exactly when one fetch per page has finished.
   */
  lemma RunFinishesWithEveryPage(workerCount: nat, base: string, pageSize: nat, pageCount: nat, completions: seq<Event>)
    requires workerCount > 0
    requires forall i :: 0 <= i < |completions| ==> completions[i].Complete?
    requires CanRun(Start(workerCount), Submits(PageUrls(base, pageSize, pageCount)) + completions)
    ensures Run(Start(workerCount), Submits(PageUrls(base, pageSize, pageCount)) + completions).inflight == map[]
        <==> |completions| == pageCount
  {
    var urls := PageUrls(base, pageSize, pageCount);
    SubmitsOnly(urls);
    SplitCounts(Submits(urls), completions);
    NoneSubmitted(completions);
    Drains(workerCount, Submits(urls) + completions);
  }

  /** When every claimed tab is below `n`, each one contributes its URL to `Flying`. */
  lemma {:induction false} FlyingSize(m: map<Tab, Url>, n: nat)
    requires forall t :: t in m ==> t < n
    ensures |Flying(m, n)| == |m|
    decreases |m|
  {
    if m == map[] {
      FlyingEmpty(n);
    } else {
      var t :| t in m;
      FlyingRemove(m, n, t);
      assert m.Keys == (m - {t}).Keys + {t};
      FlyingSize(m - {t}, n);
    }
  }

  /** A sequence with the same elements, counted, as a duplicate-free one has no duplicate either. */
  lemma SameCountsDistinct(s: seq<Url>, t: seq<Url>)
    requires multiset(s) == multiset(t)
    requires forall i, j :: 0 <= i < j < |t| ==> t[i] != t[j]
    ensures |s| == |t|
    ensures forall i, j :: 0 <= i < j < |s| ==> s[i] != s[j]
  {
    assert |s| == |multiset(s)| == |multiset(t)| == |t|;
    forall i, j | 0 <= i < j < |s|
      ensures s[i] != s[j]
    {
      if s[i] == s[j] {
        RepeatOccurs(s, i, j);
        DistinctOccurs(t, s[i]);
      }
    }
  }

  lemma {:induction false} FlyingEmpty(n: nat)
    ensures Flying(map[], n) == multiset{}
  {
    if n > 0 {
      FlyingEmpty(n - 1);
    }
  }

  lemma SplitCounts(a: seq<Event>, b: seq<Event>)
    ensures Submitted(a + b) == Submitted(a) + Submitted(b)
    ensures Fetched(a + b) == Fetched(a) + Fetched(b)
    ensures CompleteCount(a + b) == CompleteCount(a) + CompleteCount(b)
  {
    SplitSubmitted(a, b);
    SplitFetched(a, b);
    SplitCompleteCount(a, b);
  }

  lemma {:induction false} SplitSubmitted(a: seq<Event>, b: seq<Event>)
    ensures Submitted(a + b) == Submitted(a) + Submitted(b)
    decreases |a|
  {
    if a == [] {
      assert a + b == b;
    } else {
      assert (a + b)[0] == a[0] && (a + b)[1..] == a[1..] + b;
      SplitSubmitted(a[1..], b);
    }
  }

  lemma {:induction false} SplitFetched(a: seq<Event>, b: seq<Event>)
    ensures Fetched(a + b) == Fetched(a) + Fetched(b)
    decreases |a|
  {
    if a == [] {
      assert a + b == b;
    } else {
      assert (a + b)[0] == a[0] && (a + b)[1..] == a[1..] + b;
      SplitFetched(a[1..], b);
    }
  }

  lemma {:induction false} SplitCompleteCount(a: seq<Event>, b: seq<Event>)
    ensures CompleteCount(a + b) == CompleteCount(a) + CompleteCount(b)
    decreases |a|
  {
    if a == [] {
      assert a + b == b;
    } else {
      assert (a + b)[0] == a[0] && (a + b)[1..] == a[1..] + b;
      SplitCompleteCount(a[1..], b);
    }
  }

  lemma {:induction false} NoneSubmitted(evs: seq<Event>)
    requires forall i :: 0 <= i < |evs| ==> evs[i].Complete?
    ensures Submitted(evs) == [] && CompleteCount(evs) == |evs|
    decreases |evs|
  {
    if evs != [] {
      NoneSubmitted(evs[1..]);
    }
  }

  /** The pool object `run` builds: its idle tabs, its queue and its records. */
  class FetcherPool {
    var pages: seq<Tab>
    var urls: seq<Url>
    var transactions: seq<Transaction>
    ghost var inflight: map<Tab, Url>
    ghost var done: seq<Url>
    ghost const workerCount: nat

    ghost function State(): Pool
      reads this
    {
      Pool(pages, urls, transactions, inflight, done)
    }

    ghost predicate Valid()
      reads this
    {
      Inv(State(), workerCount)
    }

    /** The start of `run`: empty queue and records, then `workerCount` tabs. */
    constructor (workerCount: nat)
      ensures this.workerCount == workerCount
      ensures State() == Start(workerCount) && Valid()
    {
      this.workerCount := workerCount;
      urls := [];
      transactions := [];
      pages := Tabs(workerCount);
      inflight := map[];
      done := [];
      new;
      StartIsValid(workerCount);
    }

    /**
     * `_addUrl(url)` up to its first `await`: with an idle tab, pop it and
     * start the fetch on it (returned); otherwise queue the URL.
     */
    method AddUrl(url: Url) returns (claimed: Option<Tab>)
      modifies this
      ensures transactions == old(transactions) && done == old(done)
      ensures |old(pages)| > 0 ==>
        && claimed == Some(old(pages)[|old(pages)| - 1])
        && pages == old(pages)[..|old(pages)| - 1]
        && urls == old(urls)
        && inflight == old(inflight)[claimed.value := url]
      ensures |old(pages)| == 0 ==>
        && claimed == None
        && pages == old(pages)
        && urls == old(urls) + [url]
        && inflight == old(inflight)
      ensures State() == AddUrlStep(old(State()), url)
      ensures old(Valid()) ==> Valid()
    {
      ghost var before := State();
      if |pages| > 0 {
        var page := pages[|pages| - 1];
        pages := pages[..|pages| - 1];
        inflight := inflight[page := url];
        claimed := Some(page);
      } else {
        urls := urls + [url];
        claimed := None;
      }
      if Inv(before, workerCount) {
        AddUrlKeepsInv(before, workerCount, url);
      }
    }

    /**
     * The continuation of `_addUrl` once the fetch on `tab` has produced
     * `records`: append them, push the tab back, and if URLs wait, shift the
     * head and add it, which claims the same tab again (returned).
     */
    method Resume(tab: Tab, records: seq<Transaction>) returns (claimed: Option<Tab>)
      requires Valid() && tab in inflight
      modifies this
      ensures Valid()
      ensures transactions == old(transactions) + records
      ensures done == old(done) + [old(inflight)[tab]]
      ensures |old(urls)| > 0 ==>
        && claimed == Some(tab)
        && pages == old(pages)
        && urls == old(urls)[1..]
        && inflight == old(inflight)[tab := old(urls)[0]]
      ensures |old(urls)| == 0 ==>
        && claimed == None
        && pages == old(pages) + [tab]
        && urls == old(urls)
        && inflight == old(inflight) - {tab}
      ensures State() == ResumeStep(old(State()), tab, records)
    {
      ghost var before := State();
      transactions := transactions + records;
      done := done + [inflight[tab]];
      inflight := inflight - {tab};
      pages := pages + [tab];
      claimed := None;
      if |urls| > 0 {
        var next := urls[0];
        urls := urls[1..];
        claimed := AddUrl(next);
      }
      ResumeKeepsInv(before, workerCount, tab, records);
      ResumeReusesTab(before, tab, records);
    }

    /**
     * The `map` in `run`: add the URL of every page, in page order. Each call
     * returns at its first `await`, so all of them run before any fetch
     * finishes.
     */
    method AddPages(base: string, pageSize: nat, pageCount: nat)
      requires Valid()
      modifies this
      ensures Valid()
      ensures CanRun(old(State()), Submits(PageUrls(base, pageSize, pageCount)))
      ensures State() == Run(old(State()), Submits(PageUrls(base, pageSize, pageCount)))
    {
      ghost var before := State();
      ghost var all := PageUrls(base, pageSize, pageCount);
      for i := 0 to pageCount
        invariant Valid()
        invariant CanRun(before, Submits(all[..i])) && State() == Run(before, Submits(all[..i]))
      {
        ghost var mid := State();
        var claimed := AddUrl(PageUrl(base, pageSize, i));
        SubmitsSnoc(all, i);
        RunOne(mid, Submit(all[i]));
        RunAppend(before, Submits(all[..i]), [Submit(all[i])]);
      }
      assert all[..pageCount] == all;
    }
  }
}
