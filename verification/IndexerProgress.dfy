// Progress of the indexer: over windows that can be read whole, ticks without faults carry the checkpoint to the tip,
// one window at a time.

module IndexerProgress {
  import opened Basics
  import opened Indexer

  /** The window after ledger `base` can be read whole from this node. */
  predicate Sparse(chain: seq<Event>, rpc: Rpc, settings: Settings, base: int) {
    var lo := Before(chain, base + 1);
    var hi := Before(chain, Min(base + settings.window, rpc.tip) + 1);
    lo <= hi <= rpc.visible(0) && ReadsWhole(0, hi - lo, rpc.visible(0) - lo)
  }

  /** A tick without faults at a fixed tip: the node answers every page, every event is handled, and the checkpoint is
      stored. */
  ghost predicate Smooth(tick: (Rpc, bool), tip: nat) {
    tick.1 && tick.0.Steady() && tick.0.tip == tip
  }

  /** One such tick moves the checkpoint to the end of the window, or to the tip if that comes first. */
  lemma OneTick(chain: seq<Event>, settings: Settings, checkpoint: nat, base: int, tick: (Rpc, bool))
    requires Sorted(chain) && settings.window > 0 && -1 <= base < tick.0.tip
    requires FirstLedger(settings, checkpoint) == Some(base + 1)
    requires tick.0.Honest(chain) && Smooth(tick, tick.0.tip) && Sparse(chain, tick.0, settings, base)
    ensures NextCheckpoint(PollOf(chain, tick.0, settings, checkpoint), checkpoint, tick.1)
            == Min(base + settings.window, tick.0.tip)
  {
    hide Before, ReadOn, ReadsWhole, PollOf, NextCheckpoint;
    CompleteExactly(chain, tick.0, settings, checkpoint);
    CheckpointMoves(chain, tick.0, settings, checkpoint, true);
  }

  /** After n smooth ticks over sparse windows the checkpoint is n windows further, or at the tip if that comes first. A
      start at ledger 0 with windows of one ledger is the exception, see `StuckAtZero`. */
  lemma {:induction false} WindowsAdvance(chain: seq<Event>, settings: Settings, checkpoint: nat, base: int, tip: nat,
                                          ticks: seq<(Rpc, bool)>)
    requires Sorted(chain) && settings.window > 0 && -1 <= base && 0 < base + settings.window
    requires FirstLedger(settings, checkpoint) == Some(base + 1)
    requires ticks != [] && base + (|ticks| - 1) * settings.window < tip
    requires forall t :: t in ticks ==> t.0.Honest(chain) && Smooth(t, tip)
    requires forall i :: 0 <= i < |ticks| ==> Sparse(chain, ticks[i].0, settings, base + i * settings.window)
    ensures CheckpointAfter(chain, settings, checkpoint, ticks) == Min(base + |ticks| * settings.window, tip)
    decreases |ticks|
  {
    hide Before, ReadsWhole, PollOf, NextCheckpoint, Sparse, Smooth;
    var w, n := settings.window, |ticks| - 1;
    var last := ticks[n];
    assert last in ticks;
    assert (n + 1) * w == n * w + w;
    if n == 0 {
      assert ticks[..0] == [];
      OneTickAt(chain, settings, checkpoint, base, tip, last);
    } else {
      assert (n - 1) * w == n * w - w;
      forall i | 0 <= i < n ensures Sparse(chain, ticks[..n][i].0, settings, base + i * w) {
        assert ticks[..n][i] == ticks[i];
      }
      WindowsAdvance(chain, settings, checkpoint, base, tip, ticks[..n]);
      FirstOn(n, w);
      OneTickAt(chain, settings, base + n * w, base + n * w, tip, last);
    }
  }

  lemma FirstOn(n: nat, w: nat)
    requires n > 0
    ensures n * w >= w
  {
  }

  lemma OneTickAt(chain: seq<Event>, settings: Settings, checkpoint: nat, base: int, tip: nat, tick: (Rpc, bool))
    requires Sorted(chain) && settings.window > 0 && -1 <= base < tip
    requires FirstLedger(settings, checkpoint) == Some(base + 1)
    requires tick.0.Honest(chain) && Smooth(tick, tip) && Sparse(chain, tick.0, settings, base)
    ensures NextCheckpoint(PollOf(chain, tick.0, settings, checkpoint), checkpoint, tick.1)
            == Min(base + settings.window, tip)
  {
    hide PollOf, NextCheckpoint, Sparse;
    OneTick(chain, settings, checkpoint, base, tick);
  }

  /** So any fixed tip is reached in as many ticks as it takes windows to cover the ledgers up to it. */
  lemma TipReached(chain: seq<Event>, settings: Settings, checkpoint: nat, tip: nat, ticks: seq<(Rpc, bool)>)
    requires Sorted(chain) && settings.window > 0 && 0 < checkpoint < tip
    requires |ticks| == (tip - checkpoint + settings.window - 1) / settings.window
    requires forall t :: t in ticks ==> t.0.Honest(chain) && Smooth(t, tip)
    requires forall i :: 0 <= i < |ticks| ==> Sparse(chain, ticks[i].0, settings, checkpoint + i * settings.window)
    ensures CheckpointAfter(chain, settings, checkpoint, ticks) == tip
  {
    hide Before, ReadsWhole, PollOf, NextCheckpoint, Sparse, Smooth;
    var n := |ticks|;
    RoundedUp(tip - checkpoint, settings.window, n);
    WindowsAdvance(chain, settings, checkpoint, checkpoint, tip, ticks);
  }

  lemma RoundedUp(x: int, w: nat, n: nat)
    requires x > 0 && w > 0 && n == (x + w - 1) / w
    ensures n > 0 && (n - 1) * w < x <= n * w
  {
    assert x + w - 1 == n * w + (x + w - 1) % w;
  }

  /** The exception: a zero checkpoint means that nothing was read yet, so reading ledger 0 alone leaves no trace. */
  lemma {:induction false} StuckAtZero(chain: seq<Event>, settings: Settings, ticks: seq<(Rpc, bool)>)
    requires Sorted(chain) && settings.window == 1 && settings.startLedger == Some(0)
    requires forall t :: t in ticks ==> t.0.Honest(chain)
    ensures CheckpointAfter(chain, settings, 0, ticks) == 0
    decreases |ticks|
  {
    hide Before, PollOf, NextCheckpoint, Sorted;
    if ticks != [] {
      var last := ticks[|ticks| - 1];
      assert last in ticks;
      StuckAtZero(chain, settings, ticks[..|ticks| - 1]);
      CheckpointMoves(chain, last.0, settings, 0, last.1);
    }
  }
}
