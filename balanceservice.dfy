/** The daily balance snapshots of BalanceService (backtest/balanceService.go), as a
    sequential state machine.

    In the source, a goroutine waits with `select` on the tick topic, the balance topic
    and a simulated daily alarm.  The model receives the events in the order the
    `select` happened to deliver them, as a sequence, and folds them into the state
    the goroutine keeps: the price table, the last decoded balance, the snapshots so
    far, the count of closed topics and which topics are closed.  A closed topic's
    channel is set to nil, and a nil channel is never selected again, so any later
    event of that topic is never delivered.
 */
module BalanceService {
  import opened Panics
  import opened Balances

  /** balanceSnap: the worth of the balance and the price of the tracked asset at an
      alarm date. */
  datatype BalanceSnap = BalanceSnap(date: int, amount: real, price: real)

  /** The `bal` pointer: nil until the first balance message, then the last decoded
      balance.  The service never changes a balance it decoded. */
  datatype BalanceRef = NilBalance | Decoded(assets: map<string, Asset>)

  function RefOf(b: Balance?): BalanceRef
    reads b
  {
    if b == null then NilBalance else Decoded(b.assets)
  }

  /** `prices[asset]` in Go: 0 for an asset without a price. */
  function PriceOf(prices: map<string, real>, asset: string): real
  {
    if asset in prices then prices[asset] else 0.0
  }

  /** What newBalanceSnap yields for the balance behind `bal`: it aborts on a nil
      balance (Total dereferences it) and on a held asset without a price. */
  ghost function Snap(date: int, bal: BalanceRef, prices: map<string, real>, asset: string): (r: Result<BalanceSnap>)
    ensures r.Ok? <==> bal.Decoded? && bal.assets.Keys <= prices.Keys
    ensures bal.NilBalance? ==> r == Panicked(NilDereference)
    ensures bal.Decoded? && !(bal.assets.Keys <= prices.Keys) ==> r == Panicked(MissingPrice)
    ensures r.Ok? ==> r.value == BalanceSnap(date, Worth(bal.assets, prices), PriceOf(prices, asset))
  {
    match bal
    case NilBalance => Panicked(NilDereference)
    case Decoded(assets) =>
      if assets.Keys <= prices.Keys then Ok(BalanceSnap(date, Worth(assets, prices), PriceOf(prices, asset)))
      else Panicked(MissingPrice)
  }

  /** newBalanceSnap: copies the date, values the balance at the prices and reads the
      tracked asset's price. */
  method NewBalanceSnap(date: int, balance: Balance?, prices: map<string, real>, asset: string)
    returns (r: Result<BalanceSnap>)
    ensures r == Snap(date, RefOf(balance), prices, asset)
  {
    if balance == null {
      return Panicked(NilDereference);
    }
    var amount := balance.Total(prices);
    if amount.Panicked? {
      return Panicked(amount.reason);
    }
    return Ok(BalanceSnap(date, amount.value, PriceOf(prices, asset)));
  }

  // ---------------------------------------------------------------------------
  // The recording loop

  /** One event the recording loop's `select` receives; messages stand for their
      decoded payload. */
  datatype Event =
    | TickMsg(price: real)
    | BalanceMsg(assets: map<string, Asset>)
    | TicksClosed
    | BalancesClosed
    | Alarm(date: int)

  /** The state of the recording goroutine. */
  datatype Recorder = Recorder(prices: map<string, real>, bal: BalanceRef, bs: seq<BalanceSnap>,
                               count: nat, ticksOpen: bool, balancesOpen: bool)

  /** The state when the loop starts: the first tick, consumed while the clock is set
      up, has priced the tracked asset; there is no balance, no snapshot, and both
      topics are open. */
  function Start(prices: map<string, real>, asset: string, first: real): (st: Recorder)
    ensures st.prices.Keys == prices.Keys + {asset} && st.prices[asset] == first
    ensures forall k :: k in prices && k != asset ==> st.prices[k] == prices[k]
    ensures st.bal == NilBalance && st.bs == [] && st.count == 0 && st.ticksOpen && st.balancesOpen
  {
    Recorder(prices[asset := first], NilBalance, [], 0, true, true)
  }

  /** One turn of the loop: a tick prices the tracked asset, a balance message
      replaces `bal`, a close counts its topic once, an alarm appends one snapshot. */
  ghost function Step(asset: string, st: Recorder, e: Event): (r: Result<Recorder>)
    ensures !e.Alarm? ==> r.Ok? && r.value.bs == st.bs
    ensures e.TickMsg? ==> r.value.bal == st.bal && r.value.count == st.count
    ensures e.TickMsg? ==> r.value.ticksOpen == st.ticksOpen && r.value.balancesOpen == st.balancesOpen
    ensures e.TickMsg? ==> r.value.prices == if st.ticksOpen then st.prices[asset := e.price] else st.prices
    ensures e.BalanceMsg? ==> r.value == if st.balancesOpen then st.(bal := Decoded(e.assets)) else st
    ensures e.TicksClosed? ==> r.value == if st.ticksOpen then st.(count := st.count + 1, ticksOpen := false) else st
    ensures e.BalancesClosed? ==> r.value == if st.balancesOpen then st.(count := st.count + 1, balancesOpen := false) else st
    ensures e.Alarm? ==> (r.Ok? <==> Snap(e.date, st.bal, st.prices, asset).Ok?)
    ensures e.Alarm? && r.Ok? ==> r.value == st.(bs := st.bs + [Snap(e.date, st.bal, st.prices, asset).value])
    ensures e.Alarm? && r.Panicked? ==> r.reason == Snap(e.date, st.bal, st.prices, asset).reason
  {
    match e
    case TickMsg(p) => Ok(if st.ticksOpen then st.(prices := st.prices[asset := p]) else st)
    case BalanceMsg(m) => Ok(if st.balancesOpen then st.(bal := Decoded(m)) else st)
    case TicksClosed => Ok(if st.ticksOpen then st.(count := st.count + 1, ticksOpen := false) else st)
    case BalancesClosed => Ok(if st.balancesOpen then st.(count := st.count + 1, balancesOpen := false) else st)
    case Alarm(d) =>
      match Snap(d, st.bal, st.prices, asset)
      case Panicked(p) => Panicked(p)
      case Ok(snap) => Ok(st.(bs := st.bs + [snap]))
  }

  /** `for count < 2 { select ... }` over the delivered events: turns until both
      topics are closed, a snapshot aborts, or no event is left. */
  ghost function Run(asset: string, st: Recorder, events: seq<Event>): Result<Recorder>
    decreases |events|
  {
    if st.count >= 2 || events == [] then Ok(st)
    else
      match Step(asset, st, events[0])
      case Panicked(p) => Panicked(p)
      case Ok(next) => Run(asset, next, events[1..])
  }

  /** The recording goroutine, after the first tick: `prices` is the caller's table
      and `first` the price of that tick. */
  method Record(prices: map<string, real>, asset: string, first: real, events: seq<Event>)
    returns (r: Result<Recorder>)
    ensures r == Run(asset, Start(prices, asset, first), events)
  {
    var table := prices[asset := first];
    var bal: Balance? := null;
    var bs: seq<BalanceSnap> := [];
    var count: nat := 0;
    var ticksOpen, balancesOpen := true, true;
    var i := 0;
    while count < 2 && i < |events|
      invariant 0 <= i <= |events|
      invariant Run(asset, Start(prices, asset, first), events) ==
                Run(asset, Recorder(table, RefOf(bal), bs, count, ticksOpen, balancesOpen), events[i..])
      decreases |events| - i
    {
      ghost var st := Recorder(table, RefOf(bal), bs, count, ticksOpen, balancesOpen);
      assert events[i..][0] == events[i] && events[i..][1..] == events[i + 1..];
      var e := events[i];
      if e.TickMsg? {
        if ticksOpen {
          table := table[asset := e.price];
        }
      } else if e.BalanceMsg? {
        if balancesOpen {
          bal := new Balance.FromMap(e.assets);
        }
      } else if e.TicksClosed? {
        if ticksOpen {
          count := count + 1;
          ticksOpen := false;
        }
      } else if e.BalancesClosed? {
        if balancesOpen {
          count := count + 1;
          balancesOpen := false;
        }
      } else {
        var snap := NewBalanceSnap(e.date, bal, table, asset);
        if snap.Panicked? {
          return Panicked(snap.reason);
        }
        bs := bs + [snap.value];
      }
      assert Step(asset, st, events[i]) == Ok(Recorder(table, RefOf(bal), bs, count, ticksOpen, balancesOpen));
      i := i + 1;
    }
    return Ok(Recorder(table, RefOf(bal), bs, count, ticksOpen, balancesOpen));
  }

  // ---------------------------------------------------------------------------
  // Properties of the loop

  /** The count is the number of closed topics. */
  ghost predicate CountsCloses(st: Recorder)
  {
    st.count == (if st.ticksOpen then 0 else 1) + (if st.balancesOpen then 0 else 1)
  }

  /** Each topic's close is counted once: the count stays the number of closed topics,
      so it never passes 2, and it is 2 exactly when both topics are closed. */
  lemma {:induction false} RunCountsCloses(asset: string, st: Recorder, events: seq<Event>)
    requires CountsCloses(st)
    requires Run(asset, st, events).Ok?
    ensures CountsCloses(Run(asset, st, events).value)
    ensures Run(asset, st, events).value.count <= 2
    ensures Run(asset, st, events).value.count == 2 <==>
            !Run(asset, st, events).value.ticksOpen && !Run(asset, st, events).value.balancesOpen
    ensures st.count <= Run(asset, st, events).value.count
    decreases |events|
  {
    if st.count < 2 && events != [] {
      RunCountsCloses(asset, Step(asset, st, events[0]).value, events[1..]);
    }
  }

  /** Once the count reaches 2 the loop is over: no further event changes anything. */
  lemma RunStopsAtTwo(asset: string, st: Recorder, events: seq<Event>)
    requires st.count >= 2
    ensures Run(asset, st, events) == Ok(st)
  {
  }

  /** Delivering events in two batches is delivering them in one. */
  lemma {:induction false} RunConcat(asset: string, st: Recorder, first: seq<Event>, second: seq<Event>)
    ensures Run(asset, st, first + second) ==
            match Run(asset, st, first)
            case Panicked(p) => Panicked(p)
            case Ok(mid) => Run(asset, mid, second)
    decreases |first|
  {
    if first == [] {
      assert first + second == second;
    } else if st.count < 2 {
      assert (first + second)[0] == first[0] && (first + second)[1..] == first[1..] + second;
      var step := Step(asset, st, first[0]);
      if step.Ok? {
        RunConcat(asset, step.value, first[1..], second);
      }
    }
  }

  /** The dates of a run of snapshots. */
  function Dates(bs: seq<BalanceSnap>): seq<int>
  {
    seq(|bs|, i requires 0 <= i < |bs| => bs[i].date)
  }

  /** The dates of the alarms among the events, in order. */
  function AlarmDates(events: seq<Event>): seq<int>
    decreases |events|
  {
    if events == [] then []
    else (if events[0].Alarm? then [events[0].date] else []) + AlarmDates(events[1..])
  }

  /** Only alarms append to `bs`, one snapshot each, in the order of the alarms: the
      snapshots a run adds are dated by a prefix of its alarms, and by all of them
      when the loop did not stop early. */
  lemma {:induction false} RunSnapshots(asset: string, st: Recorder, events: seq<Event>)
    requires Run(asset, st, events).Ok?
    ensures |st.bs| <= |Run(asset, st, events).value.bs|
    ensures Run(asset, st, events).value.bs[..|st.bs|] == st.bs
    ensures Dates(Run(asset, st, events).value.bs[|st.bs|..]) <= AlarmDates(events)
    ensures Run(asset, st, events).value.count < 2 ==>
            Dates(Run(asset, st, events).value.bs[|st.bs|..]) == AlarmDates(events)
    decreases |events|
  {
    var fin := Run(asset, st, events).value;
    if st.count >= 2 || events == [] {
      assert fin == st;
      assert fin.bs[|st.bs|..] == [];
    } else {
      var e := events[0];
      var next := Step(asset, st, e).value;
      RunSnapshots(asset, next, events[1..]);
      RunCountGrows(asset, next, events[1..]);
      var added := if e.Alarm? then [e.date] else [];
      assert next.bs == st.bs + (if e.Alarm? then [next.bs[|st.bs|]] else []);
      assert fin.bs[..|next.bs|] == next.bs;
      assert fin.bs[|st.bs|..] == next.bs[|st.bs|..] + fin.bs[|next.bs|..];
      assert Dates(next.bs[|st.bs|..]) == added;
      DatesConcat(next.bs[|st.bs|..], fin.bs[|next.bs|..]);
    }
  }

  lemma DatesConcat(a: seq<BalanceSnap>, b: seq<BalanceSnap>)
    ensures Dates(a + b) == Dates(a) + Dates(b)
  {
  }

  /** The count never goes down, from any state at all.  RunCountsCloses says the
      same only for a state whose count matches its closed topics; RunSnapshots
      needs it without that requirement. */
  lemma {:induction false} RunCountGrows(asset: string, st: Recorder, events: seq<Event>)
    requires Run(asset, st, events).Ok?
    ensures st.count <= Run(asset, st, events).value.count
    decreases |events|
  {
    if st.count < 2 && events != [] {
      RunCountGrows(asset, Step(asset, st, events[0]).value, events[1..]);
    }
  }

  /** Ticks change only the tracked asset's price: every other entry of the table is
      left as it was, and the tracked price is the old one or that of a delivered
      tick. */
  lemma {:induction false} RunPrices(asset: string, st: Recorder, events: seq<Event>)
    requires Run(asset, st, events).Ok?
    ensures Run(asset, st, events).value.prices.Keys <= st.prices.Keys + {asset}
    ensures forall k :: k in st.prices ==> k in Run(asset, st, events).value.prices
    ensures forall k :: k in st.prices && k != asset ==> Run(asset, st, events).value.prices[k] == st.prices[k]
    ensures PriceOf(Run(asset, st, events).value.prices, asset) == PriceOf(st.prices, asset) ||
            exists i :: 0 <= i < |events| && events[i] == TickMsg(PriceOf(Run(asset, st, events).value.prices, asset))
    decreases |events|
  {
    if st.count < 2 && events != [] {
      var next := Step(asset, st, events[0]).value;
      RunPrices(asset, next, events[1..]);
      var p := PriceOf(Run(asset, st, events).value.prices, asset);
      if p != PriceOf(next.prices, asset) {
        var i :| 0 <= i < |events[1..]| && events[1..][i] == TickMsg(p);
        assert events[i + 1] == TickMsg(p);
      } else if p != PriceOf(st.prices, asset) {
        assert events[0] == TickMsg(p);
      }
    }
  }

  /** Balance messages only replace `bal`: it is the old one or one that was delivered. */
  lemma {:induction false} RunBalance(asset: string, st: Recorder, events: seq<Event>)
    requires Run(asset, st, events).Ok?
    ensures Run(asset, st, events).value.bal == st.bal ||
            (Run(asset, st, events).value.bal.Decoded? &&
             exists i :: 0 <= i < |events| && events[i] == BalanceMsg(Run(asset, st, events).value.bal.assets))
    decreases |events|
  {
    if st.count < 2 && events != [] {
      var next := Step(asset, st, events[0]).value;
      RunBalance(asset, next, events[1..]);
      var b := Run(asset, st, events).value.bal;
      if b != next.bal {
        var i :| 0 <= i < |events[1..]| && events[1..][i] == BalanceMsg(b.assets);
        assert events[i + 1] == BalanceMsg(b.assets);
      } else if b != st.bal {
        assert events[0] == BalanceMsg(b.assets);
      }
    }
  }

  /** A turn that completes hands the rest of the events to the next state. */
  lemma RunFrom(asset: string, st: Recorder, e: Event, rest: seq<Event>, next: Recorder)
    requires st.count < 2 && Step(asset, st, e) == Ok(next)
    ensures Run(asset, st, [e] + rest) == Run(asset, next, rest)
  {
    assert ([e] + rest)[0] == e && ([e] + rest)[1..] == rest;
  }

  /** An alarm in the daily-snapshot scenario: holding one BTC priced at `price`, the
      snapshot is worth `price`. */
  lemma OneBtcAlarm(st: Recorder, date: int, price: real)
    requires st.bal == Decoded(map["BTC" := Asset("BTC", 1.0, 0.0)])
    requires st.prices == map["USDT" := 1.0, "BTC" := price]
    ensures Step("BTC", st, Alarm(date)) == Ok(st.(bs := st.bs + [BalanceSnap(date, price, price)]))
  {
    WorthSingle(Asset("BTC", 1.0, 0.0), st.prices);
  }

  /** The daily-snapshot scenario: capital USDT priced at 1, a first tick pricing BTC at
      100, a balance of 1 free BTC, an alarm, a tick at 110, an alarm, then both topics
      close.  Two snapshots are recorded, worth 100 and 110, and the loop ends. */
  lemma DailySnapshots()
    ensures var btc := map["BTC" := Asset("BTC", 1.0, 0.0)];
            var events := [BalanceMsg(btc), Alarm(1), TickMsg(110.0), Alarm(2), TicksClosed, BalancesClosed];
            var result := Run("BTC", Start(map["USDT" := 1.0], "BTC", 100.0), events);
            && result.Ok?
            && result.value.bs == [BalanceSnap(1, 100.0, 100.0), BalanceSnap(2, 110.0, 110.0)]
            && result.value.count == 2
  {
    var btc := map["BTC" := Asset("BTC", 1.0, 0.0)];
    var p1 := map["USDT" := 1.0, "BTC" := 100.0];
    var p2 := map["USDT" := 1.0, "BTC" := 110.0];
    var s0 := Start(map["USDT" := 1.0], "BTC", 100.0);
    assert s0.prices == p1;
    var s1 := s0.(bal := Decoded(btc));
    var s2 := s1.(bs := [BalanceSnap(1, 100.0, 100.0)]);
    var s3 := s2.(prices := p2);
    var s4 := s3.(bs := [BalanceSnap(1, 100.0, 100.0), BalanceSnap(2, 110.0, 110.0)]);
    var s5 := s4.(count := 1, ticksOpen := false);
    var s6 := s5.(count := 2, balancesOpen := false);
    OneBtcAlarm(s1, 1, 100.0);
    assert s1.bs + [BalanceSnap(1, 100.0, 100.0)] == s2.bs;
    OneBtcAlarm(s3, 2, 110.0);
    assert s3.bs + [BalanceSnap(2, 110.0, 110.0)] == s4.bs;
    assert p1["BTC" := 110.0] == p2;
    var e6: seq<Event> := [];
    var e5 := [BalancesClosed] + e6;
    var e4 := [TicksClosed] + e5;
    var e3 := [Alarm(2)] + e4;
    var e2 := [TickMsg(110.0)] + e3;
    var e1 := [Alarm(1)] + e2;
    var e0 := [BalanceMsg(btc)] + e1;
    RunFrom("BTC", s5, BalancesClosed, e6, s6);
    RunFrom("BTC", s4, TicksClosed, e5, s5);
    RunFrom("BTC", s3, Alarm(2), e4, s4);
    RunFrom("BTC", s2, TickMsg(110.0), e3, s3);
    RunFrom("BTC", s1, Alarm(1), e2, s2);
    RunFrom("BTC", s0, BalanceMsg(btc), e1, s1);
    assert e0 == [BalanceMsg(btc), Alarm(1), TickMsg(110.0), Alarm(2), TicksClosed, BalancesClosed];
  }
}
