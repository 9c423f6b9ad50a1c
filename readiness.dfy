/**
 * The readiness half of the script injected into each page. The page is seen
 * as a sequence of snapshots, one per DOM mutation; on each mutation of the
 * document body two listeners run, in the order they were registered: the
 * readiness check `resolveIfReady`, then the watcher that looks for the
 * iframe `#fm` and attaches the readiness check to its body.
 */
module Readiness {
  import opened Wrappers
  import opened Extraction

  /**
   * An element as the script sees it: the length of its `children` list
   * (what the readiness checks test) and the `tr` rows below it (what
   * `querySelectorAll("tr")` hands to `parseTable`).
   */
  datatype Element = Element(childCount: nat, rows: seq<Row>)

  /** The identity of an iframe element. */
  type FrameId = nat

  /**
   * A snapshot of the page: the element `#dvTable`, what
   * `document.getElementById("fm")` returns now, and the document body of
   * every iframe whose `contentWindow.document.body` can be read.
   */
  datatype Page = Page(dvTable: Element, fmLookup: Option<FrameId>, frameBodies: map<FrameId, Element>)

  /** `isDvTableReady()`: the table container has children. */
  predicate IsDvTableReady(page: Page) {
    page.dvTable.childCount > 0
  }

  /** Whether `isFmReady()` can evaluate: there is no `$fm` (the `&&` stops there), or its body can be read. */
  predicate FrameReadable(page: Page, fm: Option<FrameId>) {
    fm.Some? ==> fm.value in page.frameBodies
  }

  /** `isFmReady()`: the recorded iframe exists and its body has children. */
  predicate IsFmReady(page: Page, fm: Option<FrameId>)
    requires FrameReadable(page, fm)
  {
    fm.Some? && page.frameBodies[fm.value].childCount > 0
  }

  /** `isReady()` throws a TypeError: the table is not ready and the recorded iframe's body cannot be read. */
  predicate CheckThrows(page: Page, fm: Option<FrameId>) {
    !IsDvTableReady(page) && !FrameReadable(page, fm)
  }

  /** `isReady()`: the table is ready, else the iframe is. */
  predicate IsReady(page: Page, fm: Option<FrameId>)
    requires !CheckThrows(page, fm)
  {
    IsDvTableReady(page) || IsFmReady(page, fm)
  }

  /**
   * `parseDom()`: the rows of `#dvTable` when it has children, else those of
   * the iframe body when it has children, else `null`.
   */
  function ParseDom(page: Page, fm: Option<FrameId>): (r: Option<Result<seq<Transaction>, ScriptError>>)
    requires !CheckThrows(page, fm)
    ensures r.Some? <==> IsReady(page, fm)
    ensures IsDvTableReady(page) ==> r == Some(ParsedRecords(page.dvTable.rows))
    ensures r.Some? && !IsDvTableReady(page) ==>
      fm.Some? && fm.value in page.frameBodies && r == Some(ParsedRecords(page.frameBodies[fm.value].rows))
  {
    if IsDvTableReady(page) then Some(ParsedRecords(page.dvTable.rows))
    else if IsFmReady(page, fm) then Some(ParsedRecords(page.frameBodies[fm.value].rows))
    else None
  }

  /** The state of the returned promise. */
  datatype Outcome = Pending | Resolved(records: seq<Transaction>) | Rejected(error: ScriptError)

  /**
   * The state the script's closures share: the captured `$fm`, the iframes
   * whose bodies got a readiness listener (in attachment order), and the
   * promise.
   */
  datatype Watch = Watch(fm: Option<FrameId>, listened: seq<FrameId>, outcome: Outcome)

  /**
   * An error thrown by a check: inside the Promise executor it rejects the
   * promise; thrown by an event listener it is only reported.
   */
  function Raise(w: Watch, e: ScriptError, inExecutor: bool): Watch {
    if inExecutor && w.outcome.Pending? then w.(outcome := Rejected(e)) else w
  }

  /** `resolve(records)`: only the first call settles the promise. */
  function Settle(w: Watch, records: seq<Transaction>): Watch {
    if w.outcome.Pending? then w.(outcome := Resolved(records)) else w
  }

  /** The state after `resolveIfReady()` runs on a snapshot. */
  function AfterCheck(w: Watch, page: Page, inExecutor: bool): Watch {
    if CheckThrows(page, w.fm) then Raise(w, NoFrameBody, inExecutor)
    else match ParseDom(page, w.fm)
      case None => w
      case Some(Err(e)) => Raise(w, e, inExecutor)
      case Some(Ok(records)) => Settle(w, records)
  }

  /**
   * The state after the iframe watcher runs on a snapshot. It looks the
   * iframe up only while no `$fm` is recorded; a new one gets a listener on
   * its body, unless reading that body throws before `$fm` is reassigned.
   */
  function AfterWatch(w: Watch, page: Page): Watch {
    var iframe := if w.fm.Some? then w.fm else page.fmLookup;
    if iframe == w.fm then w
    else if iframe.value in page.frameBodies then w.(fm := iframe, listened := w.listened + [iframe.value])
    else w
  }

  /** The state once the script is injected: `$fm` looked up, then one check inside the executor. */
  function Injected(page: Page): Watch {
    AfterCheck(Watch(page.fmLookup, [], Pending), page, true)
  }

  /** A mutation of the document body runs the check, then the watcher. */
  function AfterBodyMutation(w: Watch, page: Page): Watch {
    AfterWatch(AfterCheck(w, page, false), page)
  }

  /** A mutation inside an iframe body runs the check only if that body has the listener. */
  function AfterFrameMutation(w: Watch, frame: FrameId, page: Page): Watch {
    if frame in w.listened then AfterCheck(w, page, false) else w
  }

  /** A DOM mutation, with the snapshot of the page just after it. */
  datatype Mutation = BodyMutation(page: Page) | FrameMutation(frame: FrameId, page: Page)

  function AfterMutation(w: Watch, m: Mutation): Watch {
    match m
    case BodyMutation(page) => AfterBodyMutation(w, page)
    case FrameMutation(frame, page) => AfterFrameMutation(w, frame, page)
  }

  /** The state after a sequence of mutations, in order. */
  function Observe(w: Watch, ms: seq<Mutation>): Watch
    decreases |ms|
  {
    if ms == [] then w else Observe(AfterMutation(w, ms[0]), ms[1..])
  }

  /** At most one iframe gets a listener, and it is the recorded `$fm`. */
  predicate ListenersValid(w: Watch) {
    |w.listened| <= 1 && (|w.listened| == 1 ==> w.fm == Some(w.listened[0]))
  }

  /**
   * The promise settles at injection exactly when the page is already ready:
   * it resolves with `parseDom()` when the rows parse and is rejected when the
   * check throws; otherwise it stays pending. No listener is attached yet.
   */
  lemma InjectionResolvesIfReady(page: Page)
    ensures Injected(page).fm == page.fmLookup && Injected(page).listened == []
    ensures Injected(page).outcome.Resolved? <==>
      !CheckThrows(page, page.fmLookup) && IsReady(page, page.fmLookup) && ParseDom(page, page.fmLookup).value.Ok?
    ensures Injected(page).outcome.Resolved? ==>
      ParseDom(page, page.fmLookup) == Some(Ok(Injected(page).outcome.records))
    ensures Injected(page).outcome.Pending? <==>
      !CheckThrows(page, page.fmLookup) && !IsReady(page, page.fmLookup)
  {
  }

  /**
   * On a body mutation a pending promise resolves exactly when the check,
   * made with the `$fm` recorded before the mutation, finds the page ready
   * and its rows parse; an error in a listener never rejects it.
   */
  lemma BodyMutationResolvesWhenReady(w: Watch, page: Page)
    requires w.outcome.Pending?
    ensures !AfterBodyMutation(w, page).outcome.Rejected?
    ensures AfterBodyMutation(w, page).outcome.Resolved? <==>
      !CheckThrows(page, w.fm) && IsReady(page, w.fm) && ParseDom(page, w.fm).value.Ok?
    ensures AfterBodyMutation(w, page).outcome.Resolved? ==>
      ParseDom(page, w.fm) == Some(Ok(AfterBodyMutation(w, page).outcome.records))
  {
    var w' := AfterCheck(w, page, false);
    assert AfterWatch(w', page).outcome == w'.outcome;
  }

  /**
   * On a mutation inside an iframe body a pending promise resolves exactly
   * when that body has the readiness listener and the check, made with the
   * recorded `$fm`, finds the page ready and its rows parse; it is never
   * rejected, and `$fm` and the listeners stay as they were.
   */
  lemma FrameMutationResolvesWhenReady(w: Watch, frame: FrameId, page: Page)
    requires w.outcome.Pending?
    ensures !AfterFrameMutation(w, frame, page).outcome.Rejected?
    ensures AfterFrameMutation(w, frame, page).outcome.Resolved? <==>
      frame in w.listened && !CheckThrows(page, w.fm) && IsReady(page, w.fm) && ParseDom(page, w.fm).value.Ok?
    ensures AfterFrameMutation(w, frame, page).outcome.Resolved? ==>
      ParseDom(page, w.fm) == Some(Ok(AfterFrameMutation(w, frame, page).outcome.records))
    ensures AfterFrameMutation(w, frame, page).fm == w.fm
    ensures AfterFrameMutation(w, frame, page).listened == w.listened
  {
  }

  /** Neither `#dvTable` nor the body of any readable iframe has children. */
  ghost predicate NothingReady(page: Page) {
    && !IsDvTableReady(page)
    && forall f :: f in page.frameBodies ==> page.frameBodies[f].childCount == 0
  }

  /** A mutation never rejects the promise, and never changes a resolved one. */
  lemma AfterMutationNeverRejects(w: Watch, m: Mutation)
    requires !w.outcome.Rejected?
    ensures !AfterMutation(w, m).outcome.Rejected?
    ensures w.outcome.Resolved? ==> AfterMutation(w, m).outcome == w.outcome
  {
    match m
    case BodyMutation(page) =>
      var w' := AfterCheck(w, page, false);
      assert !w'.outcome.Rejected? && (w.outcome.Resolved? ==> w'.outcome == w.outcome);
    case FrameMutation(frame, page) =>
  }

  /** A mutation of a page where nothing is ready leaves a pending promise pending. */
  lemma NotReadyStaysPending(w: Watch, m: Mutation)
    requires w.outcome.Pending? && NothingReady(m.page)
    ensures AfterMutation(w, m).outcome.Pending?
  {
    var page := m.page;
    if !CheckThrows(page, w.fm) {
      assert !IsReady(page, w.fm);
    }
    assert AfterCheck(w, page, false).outcome.Pending?;
  }

  /**
   * Only the check inside the Promise executor can reject: over any sequence
   * of mutations a promise that is not rejected never becomes rejected.
   */
  lemma {:induction false} ListenersNeverReject(w: Watch, ms: seq<Mutation>)
    requires !w.outcome.Rejected?
    ensures !Observe(w, ms).outcome.Rejected?
    decreases |ms|
  {
    if ms != [] {
      AfterMutationNeverRejects(w, ms[0]);
      ListenersNeverReject(AfterMutation(w, ms[0]), ms[1..]);
    }
  }

  /**
   * A page that never shows its transactions leaves the promise pending
   * forever: if no snapshot after a mutation has children in `#dvTable` or
   * in a readable iframe body, a pending promise stays pending.
   */
  lemma {:induction false} NeverReadyStaysPending(w: Watch, ms: seq<Mutation>)
    requires w.outcome.Pending?
    requires forall k :: 0 <= k < |ms| ==> NothingReady(ms[k].page)
    ensures Observe(w, ms).outcome.Pending?
    decreases |ms|
  {
    if ms != [] {
      NotReadyStaysPending(w, ms[0]);
      NeverReadyStaysPending(AfterMutation(w, ms[0]), ms[1..]);
    }
  }

  /**
   * From injection: a page that is not ready when the script is injected,
   * whose `#fm` (if any) can be read, and that never becomes ready, leaves
   * the promise pending whatever mutations follow.
   */
  lemma InjectedNeverReadyStaysPending(page: Page, ms: seq<Mutation>)
    requires NothingReady(page) && FrameReadable(page, page.fmLookup)
    requires forall k :: 0 <= k < |ms| ==> NothingReady(ms[k].page)
    ensures Observe(Injected(page), ms).outcome.Pending?
  {
    assert !IsReady(page, page.fmLookup);
    NeverReadyStaysPending(Injected(page), ms);
  }

  /**
   * An iframe that is inserted already filled is missed by the check of the
   * mutation that inserts it (that check still sees no `$fm`), and is found by
   * the next mutation of its body.
   */
  lemma NewFrameFoundOneMutationLate(w: Watch, page: Page, page': Page)
    requires w.outcome.Pending? && w.fm.None?
    requires !IsDvTableReady(page) && page.fmLookup.Some? && page.fmLookup.value in page.frameBodies
    requires !IsDvTableReady(page') && FrameReadable(page', page.fmLookup) && IsFmReady(page', page.fmLookup)
    requires ParsedRecords(page'.frameBodies[page.fmLookup.value].rows).Ok?
    ensures AfterBodyMutation(w, page).outcome.Pending?
    ensures AfterBodyMutation(w, page).fm == page.fmLookup
    ensures AfterFrameMutation(AfterBodyMutation(w, page), page.fmLookup.value, page').outcome
         == Resolved(ParsedRecords(page'.frameBodies[page.fmLookup.value].rows).value)
  {
    var w1 := AfterBodyMutation(w, page);
    assert AfterCheck(w, page, false) == w;
    assert w1 == w.(fm := page.fmLookup, listened := w.listened + [page.fmLookup.value]);
    assert page.fmLookup.value in w1.listened;
  }

  /** One mutation keeps the listener invariant. */
  lemma AfterMutationKeepsListeners(w: Watch, m: Mutation)
    requires ListenersValid(w)
    ensures ListenersValid(AfterMutation(w, m))
    ensures w.fm.Some? ==> AfterMutation(w, m).fm == w.fm && AfterMutation(w, m).listened == w.listened
  {
    match m
    case BodyMutation(page) =>
      var w' := AfterCheck(w, page, false);
      assert w'.fm == w.fm && w'.listened == w.listened;
    case FrameMutation(frame, page) =>
  }

  /**
   * Over any sequence of mutations at most one listener is attached, to the
   * recorded iframe, and once `$fm` is set it is never replaced and no
   * further listener is attached.
   */
  lemma {:induction false} ObserveKeepsListeners(w: Watch, ms: seq<Mutation>)
    requires ListenersValid(w)
    ensures ListenersValid(Observe(w, ms))
    ensures w.fm.Some? ==> Observe(w, ms).fm == w.fm && Observe(w, ms).listened == w.listened
    decreases |ms|
  {
    if ms != [] {
      AfterMutationKeepsListeners(w, ms[0]);
      ObserveKeepsListeners(AfterMutation(w, ms[0]), ms[1..]);
    }
  }

  /**
   * From injection on, at most one listener is ever attached; an iframe that
   * is already in the page at injection never gets one.
   */
  lemma {:induction false} ListenersFromInjection(page: Page, ms: seq<Mutation>)
    ensures |Observe(Injected(page), ms).listened| <= 1
    ensures page.fmLookup.Some? ==>
      Observe(Injected(page), ms).listened == [] && Observe(Injected(page), ms).fm == page.fmLookup
  {
    InjectionResolvesIfReady(page);
    ObserveKeepsListeners(Injected(page), ms);
  }

  /** A settled promise stays settled with the same value, whatever mutations follow. */
  lemma {:induction false} SettledIsFinal(w: Watch, ms: seq<Mutation>)
    requires !w.outcome.Pending?
    ensures Observe(w, ms).outcome == w.outcome
    decreases |ms|
  {
    if ms != [] {
      var w' := AfterMutation(w, ms[0]);
      assert w'.outcome == w.outcome by {
        match ms[0]
        case BodyMutation(page) =>
          assert AfterCheck(w, page, false).outcome == w.outcome;
        case FrameMutation(frame, page) =>
      }
      SettledIsFinal(w', ms[1..]);
    }
  }

  /**
   * The closures of the injected script: the captured `$fm`, the iframes
   * whose body got the readiness listener, and the state of the promise.
   */
  class Injection {
    var fm: Option<FrameId>
    var listened: seq<FrameId>
    var outcome: Outcome

    function State(): Watch
      reads this
    {
      Watch(fm, listened, outcome)
    }

    /** Injection: look `#fm` up, then run the check inside the Promise executor. */
    constructor (page: Page)
      ensures State() == Injected(page)
      ensures ListenersValid(State())
    {
      fm := page.fmLookup;
      listened := [];
      outcome := Pending;
      new;
      ResolveIfReady(page, true);
    }

    /** `resolveIfReady()`: `isReady() && resolve(parseDom())`. */
    method ResolveIfReady(page: Page, inExecutor: bool)
      modifies this
      ensures State() == AfterCheck(old(State()), page, inExecutor)
    {
      if CheckThrows(page, fm) {
        if inExecutor && outcome.Pending? {
          outcome := Rejected(NoFrameBody);
        }
        return;
      }
      if IsReady(page, fm) {
        var parsed := ParseDom(page, fm).value;
        match parsed
        case Err(e) =>
          if inExecutor && outcome.Pending? {
            outcome := Rejected(e);
          }
        case Ok(records) =>
          if outcome.Pending? {
            outcome := Resolved(records);
          }
      }
    }

    /** The body listener that records a newly inserted `#fm` and listens on its body. */
    method WatchFrame(page: Page)
      modifies this
      ensures State() == AfterWatch(old(State()), page)
    {
      var iframe := if fm.Some? then fm else page.fmLookup;
      if iframe != fm {
        if iframe.value !in page.frameBodies {
          return;
        }
        listened := listened + [iframe.value];
      }
      fm := iframe;
    }

    /** A `DOMSubtreeModified` event on the document body. */
    method OnBodyMutation(page: Page)
      requires ListenersValid(State())
      modifies this
      ensures State() == AfterBodyMutation(old(State()), page)
      ensures ListenersValid(State())
    {
      ghost var before := State();
      ResolveIfReady(page, false);
      WatchFrame(page);
      AfterMutationKeepsListeners(before, BodyMutation(page));
    }

    /** A `DOMSubtreeModified` event on the body of an iframe. */
    method OnFrameMutation(frame: FrameId, page: Page)
      requires ListenersValid(State())
      modifies this
      ensures State() == AfterFrameMutation(old(State()), frame, page)
      ensures ListenersValid(State())
    {
      if frame in listened {
        ResolveIfReady(page, false);
      }
    }
  }
}
