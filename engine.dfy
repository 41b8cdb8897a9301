/**
  The per-symbol state of script.js and the operations that change it:
  initState, calculateInitialRsi (with the assignment of the price window that
  precedes it at startup) and updateRsi, which folds a live price into the state
  and, when the candle is final, commits it and classifies the threshold cross.
 */
module Engine {
  import opened Config
  import opened Indicator
  import opened Alerts

  /** One symbol's entry of the state table. */
  datatype Record = Record(
    prices: seq<real>,  // committed closes, oldest first
    rsi: Rsi,           // the last committed RSI
    lastRsi: Rsi,       // the committed RSI before it
    avgGain: real,      // Wilder-smoothed average gain
    avgLoss: real)      // Wilder-smoothed average loss

  /** The entry initState creates: no prices, both RSIs 0, both averages 0. */
  const Blank: Record := Record([], Value(0.0), Value(0.0), 0.0, 0.0)

  /** What every entry keeps: non-negative averages and RSIs in [0, 100] (or undefined). */
  predicate Sound(rec: Record) {
    rec.avgGain >= 0.0 && rec.avgLoss >= 0.0 && InRange(rec.rsi) && InRange(rec.lastRsi)
  }

  function Last(s: seq<real>): real
    requires s != []
  {
    s[|s| - 1]
  }

  /**
    The test `if (!lastPrice) return`: there is a last committed close and it is
    not 0 (an absent element and the number 0 are both falsy).
   */
  predicate HasReference(rec: Record): (b: bool)
    ensures b ==> rec.prices != []
    ensures rec.prices == [] || rec.prices[|rec.prices| - 1] == 0.0 ==> !b
  {
    rec.prices != [] && Last(rec.prices) != 0.0
  }

  /** The candidate averages and RSI of a live price, computed against the committed state. */
  datatype Candidate = Candidate(avgGain: real, avgLoss: real, rsi: Rsi)

  /**
    The candidate of `price`: one step of Wilder's smoothing of the committed
    averages with the gain and loss of `price` over the last committed close.
   */
  function Preview(rec: Record, price: real): (c: Candidate)
    requires Sound(rec) && HasReference(rec)
    ensures c.avgGain >= 0.0 && c.avgLoss >= 0.0 && InRange(c.rsi)
  {
    var diff := price - Last(rec.prices);
    GainLossSplit(diff);
    var avgGain := Smooth(rec.avgGain, Gain(diff));
    var avgLoss := Smooth(rec.avgLoss, Loss(diff));
    Candidate(avgGain, avgLoss, RsiOf(avgGain, avgLoss))
  }

  /**
    The window after a committed close: `price` pushed, then the oldest entry
    shifted out if over Limit. The newest close is last and the window never
    grows past Limit; when it is full, exactly the oldest entry is evicted.
   */
  function Push(window: seq<real>, price: real): (w: seq<real>)
    ensures w != [] && Last(w) == price
    ensures |window| <= Limit ==> |w| <= Limit
    ensures |window| < Limit ==> w == window + [price]
    ensures |window| >= Limit ==> w == window[1..] + [price]
  {
    var pushed := window + [price];
    if |pushed| > Limit then pushed[1..] else pushed
  }

  /**
    The candidate depends on the committed entry only through its last close and
    its two averages: neither the older closes nor the stored RSIs affect it.
   */
  lemma PreviewDependsOnCommitted(rec1: Record, rec2: Record, price: real)
    requires Sound(rec1) && HasReference(rec1) && Sound(rec2) && HasReference(rec2)
    requires Last(rec1.prices) == Last(rec2.prices)
    requires rec1.avgGain == rec2.avgGain && rec1.avgLoss == rec2.avgLoss
    ensures Preview(rec1, price) == Preview(rec2, price)
  {
  }

  /** The entry after a committed close of `price`. */
  function Commit(rec: Record, price: real): (r: Record)
    requires Sound(rec) && HasReference(rec)
    ensures Sound(r)
  {
    var c := Preview(rec, price);
    Record(Push(rec.prices, price), c.rsi, rec.rsi, c.avgGain, c.avgLoss)
  }

  /**
    `rec` holds what calculateInitialRsi computes from the history `closes`,
    and its window ends with the last close of that history.
   */
  predicate Tracks(rec: Record, closes: seq<real>) {
    && closes != [] && rec.prices != []
    && Last(rec.prices) == Last(closes)
    && rec.avgGain == InitialAverage(Gains(closes))
    && rec.avgLoss == InitialAverage(Losses(closes))
    && rec.avgGain >= 0.0 && rec.avgLoss >= 0.0
    && rec.rsi == RsiOf(rec.avgGain, rec.avgLoss)
  }

  /**
    Committing a close continues the series that calculateInitialRsi started:
    once the history has more than Period closes, the committed averages and RSI
    are exactly what calculateInitialRsi would compute on the history extended
    with that close.
   */
  lemma CommitContinuesHistory(rec: Record, closes: seq<real>, price: real)
    requires Sound(rec) && HasReference(rec) && Tracks(rec, closes)
    requires |closes| > Period
    ensures Tracks(Commit(rec, price), closes + [price])
  {
    HistoryExtend(closes, price);
    SplitHistory(closes);
    InitialAverageExtend(Gains(closes), Gain(price - Last(closes)));
    InitialAverageExtend(Losses(closes), Loss(price - Last(closes)));
    assert Last(closes + [price]) == price;
  }

  /** The result of calculateInitialRsi. */
  datatype InitResult =
    | Initialized
    | ReduceOfEmpty   // fewer than two closes: reduce of an empty array throws a TypeError
    | NotRegistered   // no entry for the symbol: the write to it throws a TypeError

  /** What updateRsi does with one live price. */
  datatype Tick =
    | NotTracked                                         // no entry for the symbol: reading it throws a TypeError
    | NoLastPrice                                        // the early return of `!lastPrice`
    | Provisional(rsi: Rsi, price: real)                 // shown, nothing stored
    | Committed(rsi: Rsi, price: real, alert: Alert)     // shown, stored and checked for a cross

  /** The loop of calculateInitialRsi that pushes the gain and the loss of every consecutive difference. */
  method Differences(closes: seq<real>) returns (gains: seq<real>, losses: seq<real>)
    ensures gains == Gains(closes) && losses == Losses(closes)
    ensures |gains| == |losses| == if closes == [] then 0 else |closes| - 1
  {
    gains, losses := [], [];
    if |closes| <= 1 {
      return;
    }
    var i := 1;
    while i < |closes|
      invariant 1 <= i <= |closes|
      invariant gains == Gains(closes[..i])
      invariant losses == Losses(closes[..i])
    {
      var diff := closes[i] - closes[i - 1];
      gains := gains + [Gain(diff)];
      losses := losses + [Loss(diff)];
      assert closes[..i + 1][..i] == closes[..i];
      i := i + 1;
    }
    assert closes[..i] == closes;
  }

  /**
    The seed means and Wilder's smoothing of calculateInitialRsi: each average
    starts as the sum of the first Period values over Period and is then
    smoothed with every later value in order.
   */
  method Averages(gains: seq<real>, losses: seq<real>) returns (avgGain: real, avgLoss: real)
    requires |gains| == |losses|
    ensures avgGain == InitialAverage(gains) && avgLoss == InitialAverage(losses)
  {
    var seedGain := Sum(gains[..Min(Period, |gains|)]) / Period as real;
    var seedLoss := Sum(losses[..Min(Period, |losses|)]) / Period as real;
    avgGain, avgLoss := seedGain, seedLoss;
    if |gains| <= Period {
      return;
    }
    var i := Period;
    while i < |gains|
      invariant Period <= i <= |gains|
      invariant avgGain == Wilder(seedGain, gains[Period..i])
      invariant avgLoss == Wilder(seedLoss, losses[Period..i])
    {
      WilderStep(seedGain, gains, Period, i);
      WilderStep(seedLoss, losses, Period, i);
      avgGain := Smooth(avgGain, gains[i]);
      avgLoss := Smooth(avgLoss, losses[i]);
      i := i + 1;
    }
    assert gains[Period..i] == gains[Period..];
    assert losses[Period..i] == losses[Period..];
  }

  /** The global `state` table of script.js, keyed by symbol. */
  class Monitor {
    var state: map<string, Record>

    ghost predicate Valid()
      reads this
    {
      forall s :: s in state ==> Sound(state[s])
    }

    /** Every window is within Limit. */
    ghost predicate WindowsBounded()
      reads this
    {
      forall s :: s in state ==> |state[s].prices| <= Limit
    }

    /** The table before initState: empty. */
    constructor ()
      ensures Valid() && WindowsBounded()
      ensures state == map[]
    {
      state := map[];
    }

    /** initState: a blank entry for every configured symbol; any other entry is left as it was. */
    method InitState()
      requires Valid()
      modifies this
      ensures Valid()
      ensures old(WindowsBounded()) ==> WindowsBounded()
      ensures forall s :: s in Symbols ==> s in state && state[s] == Blank
      ensures forall s :: s !in Symbols ==> (s in state <==> s in old(state))
      ensures forall s :: s !in Symbols && s in state ==> state[s] == old(state)[s]
    {
      var i := 0;
      while i < |Symbols|
        invariant 0 <= i <= |Symbols|
        invariant Valid()
        invariant old(WindowsBounded()) ==> WindowsBounded()
        invariant forall j :: 0 <= j < i ==> Symbols[j] in state && state[Symbols[j]] == Blank
        invariant forall s :: s !in Symbols[..i] ==> (s in state <==> s in old(state))
        invariant forall s :: s !in Symbols[..i] && s in state ==> state[s] == old(state)[s]
      {
        state := state[Symbols[i] := Blank];
        assert Symbols[..i + 1] == Symbols[..i] + [Symbols[i]];
        i := i + 1;
      }
      assert Symbols[..i] == Symbols;
    }

    /**
      calculateInitialRsi: split the consecutive differences of `closes` into
      gains and losses, seed each average with the mean of the first Period,
      smooth the rest, and store both averages and the RSI (as the current and
      the previous RSI alike). The window is not touched.
     */
    method CalculateInitialRsi(symbol: string, closes: seq<real>) returns (result: InitResult)
      requires Valid()
      modifies this
      ensures Valid()
      ensures |closes| < 2 ==> result == ReduceOfEmpty && state == old(state)
      ensures |closes| >= 2 && symbol !in old(state) ==> result == NotRegistered && state == old(state)
      ensures |closes| >= 2 && symbol in old(state) ==>
        && result == Initialized
        && var avgGain, avgLoss := InitialAverage(Gains(closes)), InitialAverage(Losses(closes));
        && avgGain >= 0.0 && avgLoss >= 0.0
        && state == old(state)[symbol := old(state)[symbol].(
             avgGain := avgGain, avgLoss := avgLoss,
             rsi := RsiOf(avgGain, avgLoss), lastRsi := RsiOf(avgGain, avgLoss))]
    {
      var gains, losses := Differences(closes);
      if |gains| == 0 {
        return ReduceOfEmpty;
      }
      var avgGain, avgLoss := Averages(gains, losses);
      HistoryAveragesNonNegative(closes);
      var rsi := RsiOf(avgGain, avgLoss);

      if symbol !in state {
        return NotRegistered;
      }
      state := state[symbol := state[symbol].(avgGain := avgGain, avgLoss := avgLoss, rsi := rsi, lastRsi := rsi)];
      result := Initialized;
    }

    /**
      The startup step for one symbol whose history was fetched: the window
      becomes the fetched closes, then calculateInitialRsi runs on them. When it
      throws, the window has already been replaced.
     */
    method LoadHistory(symbol: string, closes: seq<real>) returns (result: InitResult)
      requires Valid()
      modifies this
      ensures Valid()
      ensures old(WindowsBounded()) && |closes| <= Limit ==> WindowsBounded()
      ensures symbol !in old(state) ==> result == NotRegistered && state == old(state)
      ensures symbol in old(state) && |closes| < 2 ==>
        result == ReduceOfEmpty && state == old(state)[symbol := old(state)[symbol].(prices := closes)]
      ensures symbol in old(state) && |closes| >= 2 ==>
        && result == Initialized
        && symbol in state && state == old(state)[symbol := state[symbol]]
        && state[symbol].prices == closes
        && state[symbol].lastRsi == state[symbol].rsi
        && Tracks(state[symbol], closes)
    {
      if symbol !in state {
        return NotRegistered;
      }
      state := state[symbol := state[symbol].(prices := closes)];
      result := CalculateInitialRsi(symbol, closes);
    }

    /**
      updateRsi: the candidate RSI of `price` against the committed state is
      always produced for display; only a final candle stores it, shifting the
      current RSI into lastRsi, storing the candidate averages, pushing the price
      into the bounded window and classifying the cross.
     */
    method UpdateRsi(symbol: string, price: real, isFinal: bool) returns (tick: Tick)
      requires Valid()
      modifies this
      ensures Valid()
      ensures old(WindowsBounded()) ==> WindowsBounded()
      ensures symbol !in old(state) ==> tick == NotTracked && state == old(state)
      ensures symbol in old(state) && !HasReference(old(state)[symbol]) ==>
        tick == NoLastPrice && state == old(state)
      ensures symbol in old(state) && HasReference(old(state)[symbol]) && !isFinal ==>
        && tick == Provisional(Preview(old(state)[symbol], price).rsi, price)
        && state == old(state)
      ensures symbol in old(state) && HasReference(old(state)[symbol]) && isFinal ==>
        && var rec := old(state)[symbol];
        && var rsi := Preview(rec, price).rsi;
        && tick == Committed(rsi, price, CheckAlert(rsi, rec.rsi))
        && state == old(state)[symbol := Commit(rec, price)]
    {
      if symbol !in state {
        return NotTracked;
      }
      var rec := state[symbol];
      if rec.prices == [] || rec.prices[|rec.prices| - 1] == 0.0 {
        return NoLastPrice;
      }
      var lastPrice := rec.prices[|rec.prices| - 1];

      var diff := price - lastPrice;
      var gain := Gain(diff);
      var loss := Loss(diff);
      GainLossSplit(diff);

      var tempAvgGain := Smooth(rec.avgGain, gain);
      var tempAvgLoss := Smooth(rec.avgLoss, loss);
      var rsi := RsiOf(tempAvgGain, tempAvgLoss);

      if isFinal {
        rec := rec.(lastRsi := rec.rsi);
        rec := rec.(rsi := rsi);
        rec := rec.(avgGain := tempAvgGain, avgLoss := tempAvgLoss);
        rec := rec.(prices := rec.prices + [price]);
        if |rec.prices| > Limit {
          rec := rec.(prices := rec.prices[1..]);
        }
        state := state[symbol := rec];
        tick := Committed(rsi, price, CheckAlert(rsi, rec.lastRsi));
      } else {
        tick := Provisional(rsi, price);
      }
    }
  }

  /**
    A tick followed by the close of its candle at the same price: the provisional
    update changes nothing, so the committed RSI is the one already shown.
   */
  method ProvisionalThenFinal(m: Monitor, symbol: string, price: real) returns (shown: Tick, committed: Tick)
    requires m.Valid()
    modifies m
    ensures m.Valid()
    ensures shown.Provisional? <==> committed.Committed?
    ensures shown.Provisional? ==> shown.rsi == committed.rsi && shown.price == committed.price
    ensures committed.Committed? ==>
      symbol in old(m.state) && symbol in m.state && m.state[symbol].lastRsi == old(m.state)[symbol].rsi
    ensures committed.Committed? ==> shown.Provisional? && symbol in m.state && m.state[symbol].rsi == shown.rsi
  {
    shown := m.UpdateRsi(symbol, price, false);
    committed := m.UpdateRsi(symbol, price, true);
  }
}
