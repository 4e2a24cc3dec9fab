// The indexer: paged reads of one ledger window, and a checkpoint that never passes an unprocessed event.

module Indexer {
  import opened Basics

  datatype Event = Event(id: nat, ledger: nat)

  const LIMIT := 100
  const PAGES := 100

  // ---------------------------------------------------------------- the chain's log

  /** The events of one contract, in the order of their ledgers. */
  predicate Sorted(chain: seq<Event>) {
    forall i, j :: 0 <= i < j < |chain| ==> chain[i].ledger <= chain[j].ledger
  }

  /** How many events lie before a ledger. */
  function Before(chain: seq<Event>, ledger: int): (n: nat)
    ensures n <= |chain|
    ensures n < |chain| ==> chain[n].ledger >= ledger
    ensures forall i :: 0 <= i < n ==> chain[i].ledger < ledger
  {
    if chain == [] || chain[0].ledger >= ledger then 0 else 1 + Before(chain[1..], ledger)
  }

  lemma BeforeSplits(chain: seq<Event>, ledger: int, i: nat)
    requires Sorted(chain) && i < |chain|
    ensures i < Before(chain, ledger) <==> chain[i].ledger < ledger
  {
    var n := Before(chain, ledger);
    if n < i {
      assert chain[n].ledger <= chain[i].ledger;
    }
  }

  lemma BeforeMonotone(chain: seq<Event>, a: int, b: int)
    requires Sorted(chain) && a <= b
    ensures Before(chain, a) <= Before(chain, b)
  {
    var n := Before(chain, b);
    if n < |chain| {
      BeforeSplits(chain, a, n);
    }
  }

  /** The events of the ledgers from `first` to `last`. */
  function InWindow(chain: seq<Event>, first: int, last: int): (window: seq<Event>)
    requires Sorted(chain)
    ensures forall e :: e in window ==> e in chain && first <= e.ledger <= last
    ensures forall e :: e in chain && first <= e.ledger <= last ==> e in window
  {
    var lo, hi := Before(chain, first), Before(chain, last + 1);
    if hi < lo then
      EmptyWindow(chain, first, last);
      []
    else
      WindowMembers(chain, first, last);
      chain[lo..hi]
  }

  lemma EmptyWindow(chain: seq<Event>, first: int, last: int)
    requires Sorted(chain) && Before(chain, last + 1) < Before(chain, first)
    ensures last < first
  {
    if first <= last + 1 {
      BeforeMonotone(chain, first, last + 1);
    }
  }

  lemma WindowMembers(chain: seq<Event>, first: int, last: int)
    requires Sorted(chain) && Before(chain, first) <= Before(chain, last + 1)
    ensures forall e :: e in chain[Before(chain, first)..Before(chain, last + 1)]
                        <==> e in chain && first <= e.ledger <= last
  {
    hide Before;
    var lo, hi := Before(chain, first), Before(chain, last + 1);
    forall i | 0 <= i < |chain|
      ensures lo <= i < hi <==> first <= chain[i].ledger <= last
    {
      BeforeSplits(chain, first, i);
      BeforeSplits(chain, last + 1, i);
    }
    forall e | e in chain && first <= e.ledger <= last
      ensures e in chain[lo..hi]
    {
      var i :| 0 <= i < |chain| && chain[i] == e;
      assert chain[lo..hi][i - lo] == e;
    }
  }

  // ---------------------------------------------------------------- the RPC node

  /** One node's answers during one poll. At page i it has seen the first `visible(i)` events of the log, which
      include every ledger up to the tip it reported; the call for the tip or for a page may fail, and a page
      may come without a cursor. */
  datatype Rpc = Rpc(down: bool, tip: nat, visible: nat -> nat, fails: nat -> bool, dropsCursor: nat -> bool)
  {
    ghost predicate Honest(chain: seq<Event>) {
      forall i: nat :: Before(chain, tip + 1) <= visible(i) <= |chain|
    }

    ghost predicate Steady() {
      !down && forall i: nat :: !fails(i) && !dropsCursor(i) && visible(i) == visible(0)
    }
  }

  datatype Request = FromLedger(first: int, last: int) | FromCursor(position: nat)
  datatype Response = Response(events: seq<Event>, cursor: Option<nat>)

  /** One page in ledger order: the first bounded by the window, a later one only by what the node has seen. A
      page is short only when nothing is left. */
  function GetEvents(chain: seq<Event>, rpc: Rpc, page: nat, request: Request): Response
    requires Sorted(chain) && rpc.visible(page) <= |chain|
    requires request.FromCursor? ==> request.position <= rpc.visible(page)
    requires request.FromLedger? ==> request.first <= request.last + 1
  {
    var lo := if request.FromLedger? then Before(chain, request.first) else request.position;
    var end := if request.FromLedger?
               then BeforeMonotone(chain, request.first, request.last + 1); Before(chain, request.last + 1)
               else rpc.visible(page);
    var stop := Min(lo + LIMIT, end);
    Response(chain[lo..stop], if rpc.dropsCursor(page) then None else Some(stop))
  }

  // ---------------------------------------------------------------- one poll

  /** How far the pages from `page` on get: up to which event of the window, and whether that is called whole. */
  datatype Reading = Failed | Read(upTo: nat, whole: bool)

  function ReadOn(rpc: Rpc, hi: nat, page: nat, position: nat): Reading
    requires page < PAGES
    decreases PAGES - page
  {
    var end := Min(position + LIMIT, if page == 0 then hi else rpc.visible(page));
    if rpc.fails(page) then Failed
    else if end < position then Failed
    else if end < position + LIMIT then Read(Min(end, hi), page < PAGES - 1)
    else if rpc.dropsCursor(page) || end > hi then Read(Min(end, hi), false)
    else if page == PAGES - 1 then Read(end, false)
    else ReadOn(rpc, hi, page + 1, end)
  }

  /** One unfolding of the reading. */
  lemma OneStep(rpc: Rpc, hi: nat, page: nat, position: nat)
    requires page < PAGES && position <= hi && forall i: nat :: hi <= rpc.visible(i)
    ensures var end := Min(position + LIMIT, if page == 0 then hi else rpc.visible(page));
            ReadOn(rpc, hi, page, position)
            == if rpc.fails(page) then Failed
               else if end < position + LIMIT then Read(Min(end, hi), page < PAGES - 1)
               else if rpc.dropsCursor(page) || end > hi then Read(Min(end, hi), false)
               else if page == PAGES - 1 then Read(end, false)
               else ReadOn(rpc, hi, page + 1, end)
  {
  }

  /** Nothing past the window is kept, and only the whole window is called whole. */
  lemma {:induction false} ReadIsSafe(rpc: Rpc, hi: nat, page: nat, position: nat)
    requires page < PAGES && position <= hi && forall i: nat :: hi <= rpc.visible(i)
    ensures var r := ReadOn(rpc, hi, page, position);
            r.Read? ==> position <= r.upTo <= hi && (r.whole ==> r.upTo == hi)
    decreases PAGES - page
  {
    if page < PAGES - 1 && position + LIMIT <= hi {
      ReadIsSafe(rpc, hi, page + 1, position + LIMIT);
    }
  }

  /** Without faults the rest of the window is read whole exactly when all the node has seen after it fits on the
      page on which the window ends, and that is not the last page. */
  predicate ReadsWhole(page: nat, inWindow: nat, inTail: nat) {
    || (page == 0 && inWindow < LIMIT)
    || (inTail < LIMIT * (inWindow / LIMIT + 1) && page + inWindow / LIMIT < PAGES - 1)
  }

  lemma NextPage(inWindow: nat)
    requires LIMIT <= inWindow
    ensures (inWindow - LIMIT) / LIMIT == inWindow / LIMIT - 1
  {
  }

  lemma ReadsWholeStep(page: nat, inWindow: nat, inTail: nat)
    requires inWindow <= inTail
    ensures inWindow < LIMIT ==>
              (ReadsWhole(page, inWindow, inTail) <==> page == 0 || (inTail < LIMIT && page < PAGES - 1))
    ensures LIMIT <= inWindow ==>
              (ReadsWhole(page, inWindow, inTail)
               <==> page < PAGES - 1 && ReadsWhole(page + 1, inWindow - LIMIT, inTail - LIMIT))
  {
    if LIMIT <= inWindow {
      NextPage(inWindow);
    }
  }

  lemma {:induction false} ReadsWholeExactly(rpc: Rpc, hi: nat, page: nat, position: nat)
    requires page < PAGES && position <= hi <= rpc.visible(0) && rpc.Steady()
    ensures var r := ReadOn(rpc, hi, page, position);
            r.Read? && (r.whole <==> ReadsWhole(page, hi - position, rpc.visible(0) - position))
    decreases PAGES - page
  {
    hide ReadOn, ReadsWhole;
    assert rpc.visible(page) == rpc.visible(0);
    OneStep(rpc, hi, page, position);
    ReadsWholeStep(page, hi - position, rpc.visible(0) - position);
    if page < PAGES - 1 && position + LIMIT <= hi {
      ReadsWholeExactly(rpc, hi, page + 1, position + LIMIT);
    }
  }

  /** Too many events after a full first page: no answer of the node, faulty or not, is called whole. */
  ghost predicate Blocked(rpc: Rpc, page: nat, lo: nat, hi: nat) {
    lo <= hi && (page > 0 || LIMIT <= hi - lo)
    && (PAGES - 1 <= page + (hi - lo) / LIMIT
        || forall i: nat :: hi <= rpc.visible(i) && LIMIT * ((hi - lo) / LIMIT + 1) <= rpc.visible(i) - lo)
  }

  lemma BlockedStep(rpc: Rpc, page: nat, lo: nat, hi: nat)
    requires Blocked(rpc, page, lo, hi)
    ensures lo <= hi
    ensures hi - lo < LIMIT ==> page > 0 && (PAGES - 1 <= page || forall i: nat :: LIMIT <= rpc.visible(i) - lo)
    ensures LIMIT <= hi - lo ==> Blocked(rpc, page + 1, lo + LIMIT, hi)
  {
    if LIMIT <= hi - lo {
      NextPage(hi - lo);
    }
  }

  lemma {:induction false} BlockedIsNeverWhole(rpc: Rpc, hi: nat, page: nat, position: nat)
    requires page < PAGES && Blocked(rpc, page, position, hi) && forall i: nat :: hi <= rpc.visible(i)
    ensures var r := ReadOn(rpc, hi, page, position);
            r.Read? ==> !r.whole
    decreases PAGES - page
  {
    hide ReadOn, Blocked;
    BlockedStep(rpc, page, position, hi);
    OneStep(rpc, hi, page, position);
    if page < PAGES - 1 && position + LIMIT <= hi {
      BlockedIsNeverWhole(rpc, hi, page + 1, position + LIMIT);
    }
  }

  datatype Settings = Settings(window: nat, margin: nat, startLedger: Option<nat>)
  datatype Batch = Batch(events: seq<Event>, checkpoint: nat, complete: bool, reset: bool)
  datatype Poll = Threw | Polled(batch: Batch)

  /** The first ledger of the next window, if there is one. */
  function FirstLedger(settings: Settings, checkpoint: nat): Option<nat> {
    if checkpoint > 0 then Some(checkpoint + 1) else settings.startLedger
  }

  function LastLedger(settings: Settings, first: nat, tip: nat): int {
    Min(first + settings.window - 1, tip)
  }

  function PollOf(chain: seq<Event>, rpc: Rpc, settings: Settings, checkpoint: nat): Poll
    requires Sorted(chain) && rpc.Honest(chain)
  {
    match FirstLedger(settings, checkpoint)
    case None => Threw
    case Some(first) =>
      if rpc.down then Threw
      else if first > rpc.tip then
        Polled(Batch([], if rpc.tip < settings.margin then 0 else rpc.tip - settings.margin, true, true))
      else WindowPoll(chain, rpc, first, LastLedger(settings, first, rpc.tip))
  }

  function WindowPoll(chain: seq<Event>, rpc: Rpc, first: nat, last: int): Poll
    requires Sorted(chain) && rpc.Honest(chain) && first <= last + 1 && last <= rpc.tip
  {
    WindowBounds(chain, rpc, first, last);
    var lo, hi := Before(chain, first), Before(chain, last + 1);
    ReadIsSafe(rpc, hi, 0, lo);
    match ReadOn(rpc, hi, 0, lo)
    case Failed => Threw
    case Read(upTo, whole) => Polled(Batch(chain[lo..upTo], if last < 0 then 0 else last, whole, false))
  }

  lemma WindowBounds(chain: seq<Event>, rpc: Rpc, first: nat, last: int)
    requires Sorted(chain) && rpc.Honest(chain) && first <= last + 1 && last <= rpc.tip
    ensures Before(chain, first) <= Before(chain, last + 1)
    ensures forall i: nat :: Before(chain, last + 1) <= rpc.visible(i) <= |chain|
  {
    hide Before;
    BeforeMonotone(chain, first, last + 1);
    BeforeMonotone(chain, last + 1, rpc.tip + 1);
  }

  /** The poll rewinds exactly when its window would start after the tip, so also when it has just caught up. */
  lemma RewindsWhenCaughtUp(chain: seq<Event>, rpc: Rpc, settings: Settings, checkpoint: nat)
    requires Sorted(chain) && rpc.Honest(chain) && settings.window > 0
    requires checkpoint > 0 && !rpc.down
    ensures var p := PollOf(chain, rpc, settings, checkpoint);
            && (p.Polled? && p.batch.reset <==> rpc.tip <= checkpoint)
            && (p.Polled? && p.batch.reset ==>
                  p.batch.complete && p.batch.events == [] && p.batch.checkpoint <= checkpoint)
  {
    hide Before, ReadOn, Sorted;
  }

  /** A batch is the beginning of its window, and all of it when the poll calls it complete. */
  lemma CompleteMeansWholeWindow(chain: seq<Event>, rpc: Rpc, settings: Settings, checkpoint: nat)
    requires Sorted(chain) && rpc.Honest(chain) && settings.window > 0
    ensures var p := PollOf(chain, rpc, settings, checkpoint);
            p.Polled? && !p.batch.reset ==>
              && FirstLedger(settings, checkpoint).Some?
              && var first := FirstLedger(settings, checkpoint).value;
              && first <= p.batch.checkpoint == LastLedger(settings, first, rpc.tip)
              && p.batch.events <= InWindow(chain, first, p.batch.checkpoint)
              && (p.batch.complete ==> p.batch.events == InWindow(chain, first, p.batch.checkpoint))
  {
    hide Before, ReadOn, Sorted;
    var start := FirstLedger(settings, checkpoint);
    if start.Some? && start.value <= rpc.tip {
      var first, last := start.value, LastLedger(settings, start.value, rpc.tip);
      WindowBounds(chain, rpc, first, last);
      var lo, hi := Before(chain, first), Before(chain, last + 1);
      ReadIsSafe(rpc, hi, 0, lo);
      var r := ReadOn(rpc, hi, 0, lo);
      if r.Read? {
        assert chain[lo..r.upTo] == chain[lo..hi][..r.upTo - lo];
      }
    }
  }

  /** Without faults the poll is complete exactly when the window is sparse enough to be read whole. */
  lemma CompleteExactly(chain: seq<Event>, rpc: Rpc, settings: Settings, checkpoint: nat)
    requires Sorted(chain) && rpc.Honest(chain) && settings.window > 0 && rpc.Steady()
    requires FirstLedger(settings, checkpoint).Some? && FirstLedger(settings, checkpoint).value <= rpc.tip
    ensures var p := PollOf(chain, rpc, settings, checkpoint);
            var first := FirstLedger(settings, checkpoint).value;
            var lo := Before(chain, first);
            var hi := Before(chain, LastLedger(settings, first, rpc.tip) + 1);
            && lo <= hi <= rpc.visible(0) && p.Polled? && !p.batch.reset
            && (p.batch.complete <==> ReadsWhole(0, hi - lo, rpc.visible(0) - lo))
  {
    hide Before, ReadOn, Sorted, ReadsWhole;
    var first := FirstLedger(settings, checkpoint).value;
    var last := LastLedger(settings, first, rpc.tip);
    WindowBounds(chain, rpc, first, last);
    ReadsWholeExactly(rpc, Before(chain, last + 1), 0, Before(chain, first));
  }

  // ---------------------------------------------------------------- the checkpoint

  function Max(a: nat, b: nat): nat {
    if a < b then b else a
  }

  /** The stored checkpoint after one tick of one contract; `processed` when every event of the batch was recorded
      and dispatched and the checkpoint could be written. */
  function NextCheckpoint(poll: Poll, checkpoint: nat, processed: bool): nat {
    match poll
    case Threw => checkpoint
    case Polled(batch) =>
      if !batch.complete || !processed then checkpoint
      else if batch.reset then batch.checkpoint
      else Max(checkpoint, batch.checkpoint)
  }

  /** Where a whole turn leaves the checkpoint: at the end of its window, which lies past the old checkpoint; or, when
      the window would start past the tip, the margin below the tip. Every other turn leaves it where it was. */
  lemma CheckpointMoves(chain: seq<Event>, rpc: Rpc, settings: Settings, checkpoint: nat, processed: bool)
    requires Sorted(chain) && rpc.Honest(chain) && settings.window > 0
    ensures var p := PollOf(chain, rpc, settings, checkpoint);
            var next := NextCheckpoint(p, checkpoint, processed);
            if p.Polled? && p.batch.complete && processed then
              && (checkpoint > 0 || settings.startLedger.Some?)
              && next == Turned(settings, if checkpoint > 0 then checkpoint + 1 else settings.startLedger.value,
                                rpc.tip)
              && (0 < checkpoint < rpc.tip ==> checkpoint < next)
            else next == checkpoint
  {
    hide Before, ReadOn, Sorted;
  }

  /** The end of a window of so many ledgers from `first` on, or the rewound tip. */
  function Turned(settings: Settings, first: nat, tip: nat): int {
    if first <= tip then Min(first + settings.window - 1, tip)
    else if settings.margin <= tip then tip - settings.margin
    else 0
  }

  /** Every event of the contract from ledger `base` to the checkpoint has been handled. */
  ghost predicate Covered(contract: nat, chain: seq<Event>, base: nat, checkpoint: nat, handled: set<(nat, Event)>) {
    forall e :: e in chain && base <= e.ledger <= checkpoint ==> (contract, e) in handled
  }

  /** Windows start right after the checkpoint, or at the start ledger: from there on nothing can be skipped. */
  predicate Counts(settings: Settings, base: nat) {
    settings.startLedger.Some? ==> settings.startLedger.value <= base
  }

  lemma CoverageKept(contract: nat, chain: seq<Event>, rpc: Rpc, settings: Settings, checkpoint: nat,
                     processed: bool, base: nat, before: set<(nat, Event)>, after: set<(nat, Event)>)
    requires Sorted(chain) && rpc.Honest(chain) && settings.window > 0 && Counts(settings, base)
    requires Covered(contract, chain, base, checkpoint, before) && before <= after
    requires var p := PollOf(chain, rpc, settings, checkpoint);
             p.Polled? && processed ==> forall e :: e in p.batch.events ==> (contract, e) in after
    ensures var next := NextCheckpoint(PollOf(chain, rpc, settings, checkpoint), checkpoint, processed);
            Covered(contract, chain, base, next, after)
  {
    var p := PollOf(chain, rpc, settings, checkpoint);
    CompleteMeansWholeWindow(chain, rpc, settings, checkpoint);
    if p.Polled? && p.batch.reset && checkpoint > 0 {
      RewindsWhenCaughtUp(chain, rpc, settings, checkpoint);
    }
    RewindStaysBelowStart(chain, rpc, settings, checkpoint, base);
    hide Before, PollOf, Sorted, LastLedger;
  }

  lemma RewindStaysBelowStart(chain: seq<Event>, rpc: Rpc, settings: Settings, checkpoint: nat, base: nat)
    requires Sorted(chain) && rpc.Honest(chain) && settings.window > 0 && Counts(settings, base)
    ensures var p := PollOf(chain, rpc, settings, checkpoint);
            p.Polled? && p.batch.reset && checkpoint == 0 ==> p.batch.checkpoint < base
  {
    hide Before, ReadOn, Sorted;
  }

  /** The checkpoint after a run of ticks of one contract. */
  function CheckpointAfter(chain: seq<Event>, settings: Settings, checkpoint: nat, ticks: seq<(Rpc, bool)>): nat
    requires Sorted(chain) && forall t :: t in ticks ==> t.0.Honest(chain)
  {
    if ticks == [] then checkpoint
    else
      var last := ticks[|ticks| - 1];
      var sofar := CheckpointAfter(chain, settings, checkpoint, ticks[..|ticks| - 1]);
      NextCheckpoint(PollOf(chain, last.0, settings, sofar), sofar, last.1)
  }

  /** A window with too many events never moves the checkpoint again, whatever the node answers. */
  lemma {:induction false} BlockedForever(chain: seq<Event>, settings: Settings, checkpoint: nat,
                                          ticks: seq<(Rpc, bool)>)
    requires Sorted(chain) && settings.window > 0 && checkpoint > 0
    requires forall t :: t in ticks ==>
                           && t.0.Honest(chain) && checkpoint + settings.window <= t.0.tip
                           && Blocked(t.0, 0, Before(chain, checkpoint + 1),
                                      Before(chain, checkpoint + settings.window + 1))
    ensures CheckpointAfter(chain, settings, checkpoint, ticks) == checkpoint
    decreases |ticks|
  {
    hide Before, ReadOn, Sorted, Blocked;
    if ticks != [] {
      var last := ticks[|ticks| - 1];
      BlockedForever(chain, settings, checkpoint, ticks[..|ticks| - 1]);
      assert last in ticks;
      WindowBounds(chain, last.0, checkpoint + 1, checkpoint + settings.window);
      BlockedIsNeverWhole(last.0, Before(chain, checkpoint + settings.window + 1), 0, Before(chain, checkpoint + 1));
    }
  }

  // ---------------------------------------------------------------- the event source

  class EventSource {
    const chains: nat -> seq<Event>
    const settings: Settings

    constructor (chains: nat -> seq<Event>, settings: Settings)
      ensures this.chains == chains && this.settings == settings
    {
      this.chains, this.settings := chains, settings;
    }

    method PollContract(contract: nat, rpc: Rpc, checkpoint: nat) returns (r: Poll)
      requires Sorted(chains(contract)) && rpc.Honest(chains(contract)) && settings.window > 0
      ensures r == PollOf(chains(contract), rpc, settings, checkpoint)
    {
      hide Before, Sorted, ReadOn, WindowPoll;
      var chain := chains(contract);
      if rpc.down || (checkpoint == 0 && settings.startLedger.None?) {
        return Threw;
      }
      var fromLedger := if checkpoint > 0 then checkpoint + 1 else settings.startLedger.value;
      if fromLedger > rpc.tip {
        var rewound := if rpc.tip < settings.margin then 0 else rpc.tip - settings.margin;
        return Polled(Batch([], rewound, true, true));
      }
      r := ReadPages(chain, rpc, fromLedger, Min(fromLedger + settings.window - 1, rpc.tip));
    }

    /** The paging loop: page by page until the node runs dry, drops its cursor, or runs past the window. */
    method ReadPages(chain: seq<Event>, rpc: Rpc, fromLedger: nat, endLedger: nat) returns (r: Poll)
      requires Sorted(chain) && rpc.Honest(chain) && fromLedger <= endLedger <= rpc.tip
      ensures r == WindowPoll(chain, rpc, fromLedger, endLedger)
    {
      hide Before, Sorted, ReadOn, GetEvents;
      var events: seq<Event> := [];
      var exhaustedPageLimit, complete, overflowedWindow := true, true, false;
      var request := FromLedger(fromLedger, endLedger);

      ghost var lo, hi := Before(chain, fromLedger), Before(chain, endLedger + 1);
      WindowBounds(chain, rpc, fromLedger, endLedger);
      ghost var position, upTo := lo, lo;
      var page, reading := 0, true;
      while page < PAGES && reading
        invariant 0 <= page <= PAGES && lo <= upTo <= hi && events == chain[lo..upTo]
        invariant reading ==> complete && !overflowedWindow && position == upTo
        invariant reading ==> page == 0 || exhaustedPageLimit == (page == PAGES)
        invariant reading ==> request == if page == 0 then FromLedger(fromLedger, endLedger) else FromCursor(position)
        invariant reading && page < PAGES ==> ReadOn(rpc, hi, 0, lo) == ReadOn(rpc, hi, page, position)
        invariant reading && page == PAGES ==> ReadOn(rpc, hi, 0, lo) == Read(upTo, false)
        invariant reading && page == 0 ==> position == lo
        invariant !reading ==> ReadOn(rpc, hi, 0, lo) == Read(upTo, complete && !exhaustedPageLimit)
        decreases PAGES - page, reading
      {
        exhaustedPageLimit := page == PAGES - 1;
        OnePage(chain, rpc, page, fromLedger, endLedger, position);
        OneStep(rpc, hi, page, position);
        if rpc.fails(page) {
          return Threw;
        }
        var response := GetEvents(chain, rpc, page, request);
        ghost var end := position + |response.events|;
        events, overflowedWindow := KeepWindow(chain, response.events, events, endLedger, lo, position);
        upTo := Min(end, hi);
        if |response.events| < LIMIT {
          reading := false;
        } else if response.cursor.None? {
          complete, reading := false, false;
        } else {
          request := FromCursor(response.cursor.value);
          if overflowedWindow {
            complete, reading := false, false;
          } else {
            position, page := end, page + 1;
          }
        }
      }
      if exhaustedPageLimit {
        complete := false;
      }
      return Polled(Batch(events, endLedger, complete, false));
    }

    /** The events of a page that belong to the window are kept; the others only raise the flag. */
    method KeepWindow(chain: seq<Event>, page: seq<Event>, kept: seq<Event>, endLedger: int,
                      ghost lo: nat, ghost position: nat) returns (events: seq<Event>, overflowed: bool)
      requires Sorted(chain) && lo <= position <= Before(chain, endLedger + 1)
      requires position + |page| <= |chain| && page == chain[position..position + |page|]
      requires kept == chain[lo..position]
      ensures events == chain[lo..Min(position + |page|, Before(chain, endLedger + 1))]
      ensures overflowed <==> Before(chain, endLedger + 1) < position + |page|
    {
      hide Before, Sorted;
      events, overflowed := kept, false;
      ghost var hi := Before(chain, endLedger + 1);
      for i := 0 to |page|
        invariant events == chain[lo..Min(position + i, hi)]
        invariant overflowed <==> hi < position + i
      {
        BeforeSplits(chain, endLedger + 1, position + i);
        assert page[i] == chain[position + i];
        if page[i].ledger > endLedger {
          overflowed := true;
        } else {
          events := events + [page[i]];
        }
      }
    }
  }

  /** What a page holds: the next events after the position, and the cursor behind them. */
  lemma OnePage(chain: seq<Event>, rpc: Rpc, page: nat, first: nat, last: int, position: nat)
    requires Sorted(chain) && rpc.visible(page) <= |chain| && first <= last + 1
    requires if page == 0 then position == Before(chain, first) else position <= rpc.visible(page)
    ensures Before(chain, first) <= Before(chain, last + 1)
    ensures var request := if page == 0 then FromLedger(first, last) else FromCursor(position);
            var response := GetEvents(chain, rpc, page, request);
            var end := Min(position + LIMIT, if page == 0 then Before(chain, last + 1) else rpc.visible(page));
            && position <= end <= |chain| && response.events == chain[position..end]
            && |response.events| == end - position
            && response.cursor == if rpc.dropsCursor(page) then None else Some(end)
  {
    hide Before, Sorted;
    BeforeMonotone(chain, first, last + 1);
  }

  // ---------------------------------------------------------------- the worker

  class Repository {
    var checkpoints: map<nat, nat>
    var recorded: set<(nat, Event)>
    var dispatched: set<(nat, Event)>

    constructor ()
      ensures checkpoints == map[] && recorded == {} && dispatched == {}
    {
      checkpoints, recorded, dispatched := map[], {}, {};
    }

    function GetCheckpoint(contract: nat): nat
      reads this
    {
      if contract in checkpoints then checkpoints[contract] else 0
    }

    /** The events that were both recorded and dispatched. */
    ghost function Handled(): set<(nat, Event)>
      reads this
    {
      recorded * dispatched
    }

    method AdvanceCheckpoint(contract: nat, ledger: nat)
      modifies this`checkpoints
      ensures checkpoints == old(checkpoints)[contract := Max(old(GetCheckpoint(contract)), ledger)]
    {
      checkpoints := checkpoints[contract := Max(GetCheckpoint(contract), ledger)];
    }

    method ResetCheckpoint(contract: nat, ledger: nat)
      modifies this`checkpoints
      ensures checkpoints == old(checkpoints)[contract := ledger]
    {
      checkpoints := checkpoints[contract := ledger];
    }
  }

  /** What a tick meets: whether it gets the lease, the active deployments, the node's answers for each contract,
      and which writes succeed. */
  datatype Surroundings = Surroundings(leaseFree: bool, deployments: seq<nat>, rpc: nat -> Rpc,
                                       records: (nat, Event) -> bool, dispatches: (nat, Event) -> bool,
                                       notes: bool, stores: bool)

  class IndexerWorker {
    const source: EventSource
    const repository: Repository
    var running: bool

    constructor (source: EventSource, repository: Repository)
      ensures this.source == source && this.repository == repository && !running
    {
      this.source, this.repository, running := source, repository, false;
    }

    ghost predicate Fits(around: Surroundings)
    {
      && source.settings.window > 0
      && forall c :: c in around.deployments ==> Sorted(source.chains(c)) && around.rpc(c).Honest(source.chains(c))
    }

    /** Every event of the batch can be recorded and dispatched. */
    ghost predicate Works(contract: nat, events: seq<Event>, around: Surroundings) {
      forall e :: e in events ==> around.records(contract, e) && around.dispatches(contract, e)
    }

    ghost function Answer(contract: nat, around: Surroundings): Poll
      requires Fits(around) && contract in around.deployments
      reads repository
    {
      PollOf(source.chains(contract), around.rpc(contract), source.settings, repository.GetCheckpoint(contract))
    }

    ghost function Next(contract: nat, around: Surroundings): nat
      requires Fits(around) && contract in around.deployments
      reads repository
    {
      var poll := Answer(contract, around);
      NextCheckpoint(poll, repository.GetCheckpoint(contract),
                     around.stores && poll.Polled? && Works(contract, poll.batch.events, around))
    }

    /** Whether a turn reads its window whole, handles every event and stores the checkpoint. */
    ghost predicate Finishes(contract: nat, around: Surroundings)
      requires Fits(around) && contract in around.deployments
      reads repository
    {
      var poll := Answer(contract, around);
      around.stores && poll.Polled? && poll.batch.complete && Works(contract, poll.batch.events, around)
    }

    /** The ledger a turn reads from; without a start ledger there is none, and the turn does not finish. */
    ghost function FirstOf(contract: nat): nat
      reads repository
    {
      var checkpoint := repository.GetCheckpoint(contract);
      if checkpoint > 0 then checkpoint + 1
      else if source.settings.startLedger.Some? then source.settings.startLedger.value
      else 0
    }

    ghost predicate Aborts(contract: nat, around: Surroundings)
      requires Fits(around) && contract in around.deployments
      reads repository
    {
      var poll := Answer(contract, around);
      || poll.Threw?
      || (!around.notes && !Works(contract, poll.batch.events, around))
      || (!around.stores && poll.batch.complete && Works(contract, poll.batch.events, around))
    }

    /** From its first ledger on, nothing of the contract's log up to the stored checkpoint was left out. */
    ghost predicate NothingSkipped(contract: nat, base: nat)
      reads repository
    {
      Covered(contract, source.chains(contract), base, repository.GetCheckpoint(contract), repository.Handled())
    }

    /** The first k events work and the next one does not. */
    ghost predicate StopsAt(contract: nat, events: seq<Event>, around: Surroundings, k: nat)
      requires k <= |events|
    {
      && Works(contract, events[..k], around)
      && (k < |events| ==> !around.records(contract, events[k]) || !around.dispatches(contract, events[k]))
    }

    static ghost function Marked(contract: nat, events: seq<Event>): set<(nat, Event)> {
      set e | e in events :: (contract, e)
    }

    /** Records and dispatches the batch in order, and stops at the first failure. */
    method Process(contract: nat, events: seq<Event>, around: Surroundings) returns (succeeded: bool)
      modifies repository`recorded, repository`dispatched
      ensures succeeded <==> Works(contract, events, around)
      ensures succeeded ==> forall e :: e in events ==> (contract, e) in repository.Handled()
      ensures old(repository.Handled()) <= repository.Handled()
      ensures forall r :: r in repository.Handled() - old(repository.Handled()) ==> r.0 == contract && r.1 in events
      ensures exists k: nat :: k <= |events| && StopsAt(contract, events, around, k)
                               && repository.dispatched == old(repository.dispatched) + Marked(contract, events[..k])
    {
      succeeded := true;
      var i := 0;
      while i < |events| && succeeded
        invariant 0 <= i <= |events|
        invariant Works(contract, events[..i], around)
        invariant succeeded || StopsAt(contract, events, around, i)
        invariant repository.dispatched == old(repository.dispatched) + Marked(contract, events[..i])
        invariant forall e :: e in events[..i] ==> (contract, e) in repository.Handled()
        invariant !succeeded ==> !Works(contract, events, around)
        invariant old(repository.recorded) <= repository.recorded && old(repository.dispatched) <= repository.dispatched
        invariant forall r :: r in repository.dispatched - old(repository.dispatched) ==>
                    r.0 == contract && r.1 in events
        invariant forall r :: r in repository.recorded - old(repository.recorded) ==> r.0 == contract && r.1 in events
        decreases |events| - i, succeeded
      {
        var event := events[i];
        if around.records(contract, event) {
          repository.recorded := repository.recorded + {(contract, event)};
        }
        if around.records(contract, event) && around.dispatches(contract, event) {
          repository.dispatched := repository.dispatched + {(contract, event)};
          assert events[..i + 1] == events[..i] + [event];
          i := i + 1;
        } else {
          succeeded := false;
        }
      }
      assert !succeeded || events[..i] == events;
    }

    /** One deployment's turn: poll, process, then advance or rewind the checkpoint, or leave it. An error outside
        the events' own processing ends the tick. */
    method IndexDeployment(contract: nat, around: Surroundings) returns (aborted: bool)
      requires Fits(around) && contract in around.deployments
      modifies repository
      ensures repository.GetCheckpoint(contract) == old(Next(contract, around))
      ensures repository.GetCheckpoint(contract) ==
              if old(Finishes(contract, around))
              then Turned(source.settings, old(FirstOf(contract)), around.rpc(contract).tip)
              else old(repository.GetCheckpoint(contract))
      ensures aborted <==> old(Aborts(contract, around))
      ensures forall c :: c != contract ==> repository.GetCheckpoint(c) == old(repository.GetCheckpoint(c))
      ensures old(repository.Handled()) <= repository.Handled()
      ensures forall r :: r in repository.Handled() - old(repository.Handled()) ==> r.1 in source.chains(r.0)
      ensures forall c, base: nat :: Counts(source.settings, base) && old(NothingSkipped(c, base))
                                     ==> NothingSkipped(c, base)
    {
      var checkpoint := repository.GetCheckpoint(contract);
      var poll := source.PollContract(contract, around.rpc(contract), checkpoint);
      if poll.Threw? {
        return true;
      }
      CompleteMeansWholeWindow(source.chains(contract), around.rpc(contract), source.settings, checkpoint);
      CheckpointMoves(source.chains(contract), around.rpc(contract), source.settings, checkpoint,
                      around.stores && Works(contract, poll.batch.events, around));
      ghost var before := repository.Handled();
      var succeeded := Process(contract, poll.batch.events, around);
      forall base: nat | Counts(source.settings, base) && old(NothingSkipped(contract, base))
        ensures Covered(contract, source.chains(contract), base,
                        NextCheckpoint(poll, checkpoint, succeeded && around.stores), repository.Handled())
      {
        CoverageKept(contract, source.chains(contract), around.rpc(contract), source.settings, checkpoint,
                     succeeded && around.stores, base, before, repository.Handled());
      }
      hide PollOf, Sorted, InWindow;
      aborted := false;
      if !succeeded && !around.notes {
        aborted := true;
      } else if poll.batch.complete && succeeded {
        if !around.stores {
          aborted := true;
        } else if poll.batch.reset {
          repository.ResetCheckpoint(contract, poll.batch.checkpoint);
        } else {
          repository.AdvanceCheckpoint(contract, poll.batch.checkpoint);
        }
      }
    }

    /** The tick runs to its end, over deployments that are listed once. */
    ghost predicate Healthy(around: Surroundings)
      requires Fits(around)
      reads repository
    {
      && around.leaseFree
      && (forall i, j :: 0 <= i < j < |around.deployments| ==> around.deployments[i] != around.deployments[j])
      && forall c :: c in around.deployments ==> !Aborts(c, around)
    }

    /** One timer tick: nothing while another is running or another worker holds the lease; otherwise every
        deployment in turn, until one of them ends the tick. */
    method Tick(around: Surroundings)
      requires Fits(around)
      modifies this`running, repository
      ensures running == old(running)
      ensures old(running) || !around.leaseFree ==>
                repository.checkpoints == old(repository.checkpoints)
                && repository.Handled() == old(repository.Handled())
      ensures !old(running) && old(Healthy(around)) ==>
                forall c :: c in around.deployments ==> repository.GetCheckpoint(c) == old(Next(c, around))
      ensures old(repository.Handled()) <= repository.Handled()
      ensures forall r :: r in repository.Handled() - old(repository.Handled()) ==> r.1 in source.chains(r.0)
      ensures forall c, base: nat :: Counts(source.settings, base) && old(NothingSkipped(c, base))
                                     ==> NothingSkipped(c, base)
    {
      hide PollOf, NextCheckpoint, Sorted, Covered;
      if running {
        return;
      }
      running := true;
      if around.leaseFree {
        var i, aborted := 0, false;
        while i < |around.deployments| && !aborted
          invariant 0 <= i <= |around.deployments|
          invariant old(Healthy(around)) ==>
                      && !aborted
                      && (forall k :: 0 <= k < i ==> repository.GetCheckpoint(around.deployments[k])
                                                     == old(Next(around.deployments[k], around)))
                      && (forall k :: i <= k < |around.deployments| ==>
                                        repository.GetCheckpoint(around.deployments[k])
                                        == old(repository.GetCheckpoint(around.deployments[k])))
          invariant old(repository.Handled()) <= repository.Handled()
          invariant forall r :: r in repository.Handled() - old(repository.Handled()) ==> r.1 in source.chains(r.0)
          invariant forall c, base: nat :: Counts(source.settings, base) && old(NothingSkipped(c, base))
                                           ==> NothingSkipped(c, base)
          decreases |around.deployments| - i, !aborted
        {
          aborted := IndexDeployment(around.deployments[i], around);
          i := i + 1;
        }
      }
      running := false;
    }

    /** Over any run of ticks, whatever fails and however often the checkpoint is rewound: every event from the
        start ledger up to the stored checkpoint has been recorded and dispatched. */
    method Run(ticks: seq<Surroundings>)
      requires forall around :: around in ticks ==> Fits(around)
      modifies this`running, repository
      ensures forall c, base: nat :: Counts(source.settings, base) && old(NothingSkipped(c, base))
                                     ==> NothingSkipped(c, base)
      ensures old(repository.checkpoints) == map[] ==>
                forall c, base: nat :: Counts(source.settings, base) && 0 < base ==> NothingSkipped(c, base)
      ensures old(repository.Handled()) <= repository.Handled()
      ensures forall r :: r in repository.Handled() - old(repository.Handled()) ==> r.1 in source.chains(r.0)
    {
      for i := 0 to |ticks|
        invariant forall c, base: nat :: Counts(source.settings, base) && old(NothingSkipped(c, base))
                                         ==> NothingSkipped(c, base)
        invariant old(repository.Handled()) <= repository.Handled()
        invariant forall r :: r in repository.Handled() - old(repository.Handled()) ==> r.1 in source.chains(r.0)
      {
        Tick(ticks[i]);
      }
    }
  }
}
