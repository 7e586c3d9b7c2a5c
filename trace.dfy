/**
 * A backtest as the engine drives it: `next` called once per daily bar, the
 * remembered entry price carried from bar to bar, the orders of all bars
 * collected in order, and the run ending at the first exception.
 */
module Trace {
  import opened Orders
  import opened Signals
  import opened Strategy

  /** What the engine supplies to one call of `next`. */
  datatype Bar = Bar(snapshot: Snapshot, equity: real, position: int)

  function Run(p: Params, bars: seq<Bar>, target: Option<real>): Outcome
    decreases |bars|
  {
    if bars == [] then Emitted([], target)
    else
      var last := bars[|bars| - 1];
      match Run(p, bars[..|bars| - 1], target)
      case Raised(e) => Raised(e)
      case Emitted(before, t) =>
        match Step(p, last.snapshot, last.equity, last.position, t)
        case Raised(e) => Raised(e)
        case Emitted(placed, t') => Emitted(before + placed, t')
  }

  /** A bar on which `next` places an entry order. */
  predicate EntryBar(p: Params, b: Bar)
  {
    && b.position == 0 && b.snapshot.weeklyBars >= 2 && b.snapshot.atr != 0.0
    && (LongEntry(p, b.snapshot) || ShortEntry(p, b.snapshot))
  }

  /**
   * After any run the remembered price is the starting one or the close of a
   * bar that placed an entry; and once a price is remembered it is never
   * forgotten, so a run that starts with a remembered price never raises the
   * attribute error.
   */
  lemma {:induction false} TargetIsAnEntryClose(p: Params, bars: seq<Bar>, target: Option<real>)
    ensures var r := Run(p, bars, target);
      r.Emitted? ==> (
        || r.target == target
        || exists i :: 0 <= i < |bars| && EntryBar(p, bars[i]) && r.target == Some(bars[i].snapshot.close))
    ensures var r := Run(p, bars, target);
      r.Emitted? && target.Some? ==> r.target.Some?
    ensures target.Some? ==> Run(p, bars, target) != Raised(AttributeError)
  {
    if bars != [] {
      var n := |bars| - 1;
      var last := bars[n];
      TargetIsAnEntryClose(p, bars[..n], target);
      var r0 := Run(p, bars[..n], target);
      if r0.Emitted? {
        var r1 := Step(p, last.snapshot, last.equity, last.position, r0.target);
        if r1.Emitted? && r1.target != r0.target {
          assert EntryBar(p, last) && r1.target == Some(last.snapshot.close);
        } else if r1.Emitted? && r0.target != target {
          var i :| 0 <= i < n && EntryBar(p, bars[..n][i]) && r0.target == Some(bars[..n][i].snapshot.close);
          assert bars[i] == bars[..n][i];
        }
      }
    }
  }

  /** A run that has placed an entry remembers a price. */
  lemma {:induction false} NoPriceMeansNoEntry(p: Params, bars: seq<Bar>)
    ensures var r := Run(p, bars, None);
      r.Emitted? && r.target == None ==> forall j :: 0 <= j < |bars| ==> !EntryBar(p, bars[j])
  {
    if bars != [] {
      var n := |bars| - 1;
      var last := bars[n];
      var r0 := Run(p, bars[..n], None);
      if r0.Emitted? {
        var r1 := Step(p, last.snapshot, last.equity, last.position, r0.target);
        if r1.Emitted? && r1.target == None {
          assert r0.target == None;
          NoPriceMeansNoEntry(p, bars[..n]);
          forall j | 0 <= j < |bars| ensures !EntryBar(p, bars[j]) {
            if j < n {
              assert bars[j] == bars[..n][j];
            }
          }
        }
      }
    }
  }

  /**
   * Started from a fresh strategy, a run raises the attribute error only on
   * a bar past the warm-up whose position is open although no earlier bar
   * placed an entry: a position the strategy did not open itself.
   */
  lemma {:induction false} AttributeErrorNeedsForeignPosition(p: Params, bars: seq<Bar>)
    ensures Run(p, bars, None) == Raised(AttributeError) ==>
      exists i :: 0 <= i < |bars| && bars[i].position != 0 && bars[i].snapshot.weeklyBars >= 2 &&
        forall j :: 0 <= j < i ==> !EntryBar(p, bars[j])
  {
    if bars != [] && Run(p, bars, None) == Raised(AttributeError) {
      var n := |bars| - 1;
      var last := bars[n];
      var r0 := Run(p, bars[..n], None);
      if r0.Raised? {
        AttributeErrorNeedsForeignPosition(p, bars[..n]);
        var i :| 0 <= i < n && bars[..n][i].position != 0 && bars[..n][i].snapshot.weeklyBars >= 2 &&
          forall j :: 0 <= j < i ==> !EntryBar(p, bars[..n][j]);
        assert bars[i] == bars[..n][i];
        forall j | 0 <= j < i ensures !EntryBar(p, bars[j]) {
          assert bars[j] == bars[..n][j];
        }
      } else {
        assert r0.target == None && last.position != 0 && last.snapshot.weeklyBars >= 2;
        NoPriceMeansNoEntry(p, bars[..n]);
        forall j | 0 <= j < n ensures !EntryBar(p, bars[j]) {
          assert bars[j] == bars[..n][j];
        }
      }
    }
  }

  /**
   * While a position stays open on every bar and its entry price is known,
   * a run never fails, never enters and keeps the entry price; it places
   * between two and three orders per bar in total, and every order is a
   * non-market order that would exactly close the whole position held on one
   * of the bars.
   */
  lemma {:induction false} HoldingRun(p: Params, bars: seq<Bar>, ref: real)
    requires forall i :: 0 <= i < |bars| ==> bars[i].position != 0 && bars[i].snapshot.weeklyBars >= 2
    ensures var r := Run(p, bars, Some(ref));
      && r.Emitted? && r.target == Some(ref)
      && 2 * |bars| <= |r.orders| <= 3 * |bars|
      && (forall k :: 0 <= k < |r.orders| ==> !IsEntry(r.orders[k]))
      && (forall k :: 0 <= k < |r.orders| ==>
           exists i :: 0 <= i < |bars| && r.orders[k].size == Abs(bars[i].position) && bars[i].position + Signed(r.orders[k]) == 0)
  {
    if bars != [] {
      var n := |bars| - 1;
      var last := bars[n];
      HoldingRun(p, bars[..n], ref);
      var r0 := Run(p, bars[..n], Some(ref));
      var r1 := Step(p, last.snapshot, last.equity, last.position, Some(ref));
      NoEntryWhileOpen(p, last.snapshot, last.equity, last.position, Some(ref));
      var all := r0.orders + r1.orders;
      forall k | 0 <= k < |all|
        ensures !IsEntry(all[k])
        ensures exists i :: 0 <= i < |bars| && all[k].size == Abs(bars[i].position) && bars[i].position + Signed(all[k]) == 0
      {
        if k >= |r0.orders| {
          assert all[k] == r1.orders[k - |r0.orders|];
          assert all[k].size == Abs(bars[n].position) && bars[n].position + Signed(all[k]) == 0;
        } else {
          assert all[k] == r0.orders[k];
          var i :| 0 <= i < n && r0.orders[k].size == Abs(bars[..n][i].position) && bars[..n][i].position + Signed(r0.orders[k]) == 0;
          assert bars[i] == bars[..n][i];
        }
      }
    }
  }
}
