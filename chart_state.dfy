/** The chart's session state: scroll position, whether the first
    positioning has happened, and the frozen Y-axis domain with the hash of
    the visible data it was computed for.

    Writes the source defers with `DispatchQueue.main.async` are kept as an
    explicit queue of pending blocks; nothing happens to the fields until a
    block is run by `RunNextBlock` or `Drain`, in the order they were queued. */
module ChartStates {
  import opened Basics

  /** A block handed to the main queue and not yet run. */
  datatype Deferred =
    | MarkInitialized                              // `self.hasInitialized = true`
    | StoreStableDomain(domain: Range, hash: int)  // `self.stableYDomain = domain; self.lastVisibleDataHash = hash`

  /** The value of all of a `ChartState`'s fields at one moment. */
  datatype Snapshot = Snapshot(
    scrollPosition: real,
    hasInitialized: bool,
    stableYDomain: Option<Range>,
    lastVisibleDataHash: int,
    pending: seq<Deferred>)

  /** What running one queued block does to the fields. */
  function RunBlock(s: Snapshot, block: Deferred): Snapshot
  {
    match block
    case MarkInitialized => s.(hasInitialized := true)
    case StoreStableDomain(d, h) => s.(stableYDomain := Some(d), lastVisibleDataHash := h)
  }

  /** Runs the oldest pending block, if any. */
  function RunNext(s: Snapshot): (r: Snapshot)
    ensures s.pending != [] ==> r.pending == s.pending[1..]
    ensures s.pending == [] ==> r == s
  {
    if s.pending == [] then s
    else RunBlock(s.(pending := s.pending[1..]), s.pending[0])
  }

  /** Runs every pending block, oldest first. */
  function RunAll(s: Snapshot): (r: Snapshot)
    ensures r.pending == []
    ensures r.scrollPosition == s.scrollPosition
    decreases |s.pending|
  {
    if s.pending == [] then s else RunAll(RunNext(s))
  }

  predicate IsStore(b: Deferred) { b.StoreStableDomain? }

  /** The last domain write queued is the one that survives, whatever was
      done to the fields synchronously in between: nothing in the queue
      checks whether a reset happened after the write was scheduled. */
  lemma {:induction false} LastQueuedDomainWins(s: Snapshot, before: seq<Deferred>, d: Range, h: int, after: seq<Deferred>)
    requires s.pending == before + [StoreStableDomain(d, h)] + after
    requires forall i :: 0 <= i < |after| ==> !IsStore(after[i])
    ensures RunAll(s).stableYDomain == Some(d)
    ensures RunAll(s).lastVisibleDataHash == h
    decreases |s.pending|
  {
    if before != [] {
      assert RunNext(s).pending == before[1..] + [StoreStableDomain(d, h)] + after;
      LastQueuedDomainWins(RunNext(s), before[1..], d, h, after);
    } else {
      LaterBlocksKeepDomain(RunNext(s));
    }
  }

  /** Blocks that are not domain writes leave the domain and hash alone. */
  lemma {:induction false} LaterBlocksKeepDomain(s: Snapshot)
    requires forall i :: 0 <= i < |s.pending| ==> !IsStore(s.pending[i])
    ensures RunAll(s).stableYDomain == s.stableYDomain
    ensures RunAll(s).lastVisibleDataHash == s.lastVisibleDataHash
    decreases |s.pending|
  {
    if s.pending != [] {
      LaterBlocksKeepDomain(RunNext(s));
    }
  }

  /** A queued `MarkInitialized` leaves the state initialised once the queue
      is drained: no block ever clears the flag. */
  lemma {:induction false} QueuedInitializationTakesEffect(s: Snapshot)
    requires MarkInitialized in s.pending
    ensures RunAll(s).hasInitialized
    decreases |s.pending|
  {
    if s.pending[0] == MarkInitialized {
      InitializedStaysSet(RunNext(s));
    } else {
      assert s.pending == [s.pending[0]] + s.pending[1..];
      QueuedInitializationTakesEffect(RunNext(s));
    }
  }

  lemma {:induction false} InitializedStaysSet(s: Snapshot)
    requires s.hasInitialized
    ensures RunAll(s).hasInitialized
    decreases |s.pending|
  {
    if s.pending != [] {
      InitializedStaysSet(RunNext(s));
    }
  }

  class ChartState {
    var scrollPosition: real
    var hasInitialized: bool
    var stableYDomain: Option<Range>
    var lastVisibleDataHash: int
    /** blocks scheduled on the main queue and not yet run */
    var pending: seq<Deferred>

    function Snap(): Snapshot
      reads this
    {
      Snapshot(scrollPosition, hasInitialized, stableYDomain, lastVisibleDataHash, pending)
    }

    /** A fresh state, scrolled to `now`. */
    constructor (now: real)
      ensures scrollPosition == now
      ensures !hasInitialized && stableYDomain == None && lastVisibleDataHash == 0
      ensures pending == []
    {
      scrollPosition := now;
      hasInitialized := false;
      stableYDomain := None;
      lastVisibleDataHash := 0;
      pending := [];
    }

    /** Period change: forget the domain, re-anchor, and mark the view
        initialised again once the queue runs. */
    method ResetForPeriodChange(newScrollPosition: real)
      modifies this
      ensures !hasInitialized && stableYDomain == None && lastVisibleDataHash == 0
      ensures scrollPosition == newScrollPosition
      ensures pending == old(pending) + [MarkInitialized]
    {
      hasInitialized := false;
      stableYDomain := None;
      lastVisibleDataHash := 0;
      scrollPosition := newScrollPosition;
      pending := pending + [MarkInitialized];
    }

    /** New data: forget the domain and re-anchor; the flag is left alone. */
    method ResetForNewData(newScrollPosition: real)
      modifies this
      ensures stableYDomain == None && lastVisibleDataHash == 0
      ensures scrollPosition == newScrollPosition
      ensures hasInitialized == old(hasInitialized) && pending == old(pending)
    {
      stableYDomain := None;
      lastVisibleDataHash := 0;
      scrollPosition := newScrollPosition;
    }

    /** Scale change: forget the domain only. */
    method ResetForScaleChange()
      modifies this
      ensures stableYDomain == None && lastVisibleDataHash == 0
      ensures scrollPosition == old(scrollPosition) && hasInitialized == old(hasInitialized)
      ensures pending == old(pending)
    {
      stableYDomain := None;
      lastVisibleDataHash := 0;
    }

    /** The first positioning on appearance; ignored once initialised. */
    method InitializeScrollPosition(position: real)
      modifies this
      ensures old(hasInitialized) ==> Snap() == old(Snap())
      ensures !old(hasInitialized) ==>
        scrollPosition == position && pending == old(pending) + [MarkInitialized]
      ensures hasInitialized == old(hasInitialized)
      ensures stableYDomain == old(stableYDomain) && lastVisibleDataHash == old(lastVisibleDataHash)
    {
      if hasInitialized {
        return;
      }
      scrollPosition := position;
      pending := pending + [MarkInitialized];
    }

    /** Schedules storing `domain` with the hash it was computed for; nothing
        changes until the block runs. */
    method UpdateStableDomain(domain: Range, dataHash: int)
      modifies this
      ensures pending == old(pending) + [StoreStableDomain(domain, dataHash)]
      ensures scrollPosition == old(scrollPosition) && hasInitialized == old(hasInitialized)
      ensures stableYDomain == old(stableYDomain) && lastVisibleDataHash == old(lastVisibleDataHash)
    {
      pending := pending + [StoreStableDomain(domain, dataHash)];
    }

    /** The main queue runs its oldest block. */
    method RunNextBlock()
      modifies this
      ensures Snap() == RunNext(old(Snap()))
    {
      if pending == [] {
        return;
      }
      var block := pending[0];
      pending := pending[1..];
      match block {
        case MarkInitialized =>
          hasInitialized := true;
        case StoreStableDomain(d, h) =>
          stableYDomain := Some(d);
          lastVisibleDataHash := h;
      }
    }

    /** The main queue runs until it is empty. */
    method Drain()
      modifies this
      ensures Snap() == RunAll(old(Snap()))
      ensures pending == []
    {
      while pending != []
        invariant RunAll(Snap()) == RunAll(old(Snap()))
        decreases |pending|
      {
        RunNextBlock();
      }
    }
  }

  /** A domain computed before a period change is written back after it:
      the reset clears the domain synchronously, but the earlier write is
      still queued and runs later. */
  method StaleWriteAfterPeriodChange(state: ChartState, domain: Range, dataHash: int, newScrollPosition: real)
    modifies state
    ensures state.stableYDomain == Some(domain) && state.lastVisibleDataHash == dataHash
    ensures state.hasInitialized && state.scrollPosition == newScrollPosition
    ensures state.pending == []
  {
    state.UpdateStableDomain(domain, dataHash);
    ghost var queued := state.pending;
    state.ResetForPeriodChange(newScrollPosition);
    ghost var s := state.Snap();
    LastQueuedDomainWins(s, queued[..|queued| - 1], domain, dataHash, [MarkInitialized]);
    QueuedInitializationTakesEffect(s);
    state.Drain();
  }
}
