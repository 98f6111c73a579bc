/** The expert advisor itself: start-up validation, the once-per-bar gate, the
    band read, the choice between the long and the short reaction, and the
    three position routines it calls on the broker gateway. */
module Expert {
  import opened Market
  import opened Signals
  import opened Orders
  import opened Positions
  import opened Broker

  datatype InitError = IndicatorUnavailable | ParametersInvalid

  /** What start-up reports to the host. */
  datatype InitCode = InitSucceeded | InitFailed(reason: InitError)

  /** Which way a tick went; the source handler returns nothing, this only
      names the branch it took. */
  datatype TickPath = SameBar | BandsUnavailable | NoSignal | LongHandled | ShortHandled

  /** What the host supplies on one tick: the open time of the bar in progress,
      the values the indicator hands back for the middle, upper and lower lines,
      the current quote and the close of the last completed bar. */
  datatype MarketData = MarketData(
    barTime: int,
    middle: seq<real>,
    upper: seq<real>,
    lower: seq<real>,
    quote: Quote,
    lastClose: real)

  /** Lot size, take-profit and stop-loss must be strictly positive. */
  predicate ParametersValid(cfg: Config)
  {
    cfg.lotSize > 0.0 && cfg.takeProfit > 0 && cfg.stopLoss > 0
  }

  /** The side whose positions a reaction closes. */
  function ClosedSide(a: Action): PositionType
    requires a != Stay
  {
    if a == GoLong then PositionSell else PositionBuy
  }

  /** The side a reaction may open. */
  function OpenedSide(a: Action): PositionType
    requires a != Stay
  {
    if a == GoLong then PositionBuy else PositionSell
  }

  /** The requests one processed tick submits for action a against the list ps
      as it stood when the tick began: every matching position of the closed
      side is offset, then one opening deal follows unless a position of the
      opened side was already held. */
  function TickRequests(a: Action, ps: seq<Position>, q: Quote, symbol: string, point: real, cfg: Config): seq<TradeRequest>
  {
    if a == Stay then []
    else
      CloseRequests(ps, |ps|, ClosedSide(a), q, symbol, cfg)
      + (if HoldsPosition(ps, symbol, cfg.magicNumber, OpenedSide(a)) then []
         else [OpenRequest(OpeningOrderType(OpenedSide(a)), q, symbol, point, cfg)])
  }

  /** The list one processed tick leaves behind for action a, its first
      submission being number k: the survivors of the close pass, followed by
      the newly opened position when an opening deal was sent and accepted. */
  function TickPositions(a: Action, ps: seq<Position>, q: Quote, symbol: string, point: real, cfg: Config,
                         verdict: nat -> bool, k: nat): seq<Position>
  {
    if a == Stay then ps
    else
      var opening := k + |CloseRequests(ps, |ps|, ClosedSide(a), q, symbol, cfg)|;
      Survivors(ps, |ps|, ClosedSide(a), symbol, cfg, verdict, k)
      + (if !HoldsPosition(ps, symbol, cfg.magicNumber, OpenedSide(a)) && verdict(opening)
         then [NewPosition(OpenRequest(OpeningOrderType(OpenedSide(a)), q, symbol, point, cfg), opening)]
         else [])
  }

  /** A reaction closes the side opposite to the one it may open; all its
      closing deals come first, and at most one opening deal follows them,
      exactly when no position of the opened side was held. */
  lemma TickOpensAtMostOnce(a: Action, ps: seq<Position>, q: Quote, symbol: string, point: real, cfg: Config)
    requires a != Stay
    ensures ClosedSide(a) != OpenedSide(a)
    ensures var r := TickRequests(a, ps, q, symbol, point, cfg);
            var closes := CloseRequests(ps, |ps|, ClosedSide(a), q, symbol, cfg);
            && |closes| <= |r| <= |closes| + 1
            && r[..|closes|] == closes
            && (|r| == |closes| + 1 <==> !HoldsPosition(ps, symbol, cfg.magicNumber, OpenedSide(a)))
            && (|r| == |closes| + 1 ==> r[|closes|].otype == OpeningOrderType(OpenedSide(a)) &&
                                        r[|closes|].volume == cfg.lotSize)
  {
  }

  /** After a reaction the opened side is held exactly when it was held before
      or the reaction's opening deal was accepted: the close pass never touches
      that side. When the broker accepts every closing deal nothing of the
      closed side remains. */
  lemma {:induction false} TickClearsClosedSide(a: Action, ps: seq<Position>, q: Quote, symbol: string, point: real,
                                                cfg: Config, verdict: nat -> bool, k: nat)
    requires a != Stay
    ensures var after := TickPositions(a, ps, q, symbol, point, cfg, verdict, k);
            var opening := k + |CloseRequests(ps, |ps|, ClosedSide(a), q, symbol, cfg)|;
            HoldsPosition(after, symbol, cfg.magicNumber, OpenedSide(a)) <==>
            HoldsPosition(ps, symbol, cfg.magicNumber, OpenedSide(a)) || verdict(opening)
    ensures (forall j :: k <= j < k + |MatchIndices(ps, |ps|, symbol, cfg.magicNumber, ClosedSide(a))| ==> verdict(j)) ==>
            !HoldsPosition(TickPositions(a, ps, q, symbol, point, cfg, verdict, k), symbol, cfg.magicNumber, ClosedSide(a))
  {
    var survivors := Survivors(ps, |ps|, ClosedSide(a), symbol, cfg, verdict, k);
    var opening := k + |CloseRequests(ps, |ps|, ClosedSide(a), q, symbol, cfg)|;
    var newcomer := NewPosition(OpenRequest(OpeningOrderType(OpenedSide(a)), q, symbol, point, cfg), opening);
    var added := if !HoldsPosition(ps, symbol, cfg.magicNumber, OpenedSide(a)) && verdict(opening) then [newcomer] else [];
    assert newcomer.symbol == symbol && newcomer.magic == cfg.magicNumber && newcomer.ptype == OpenedSide(a);
    SurvivorsKeepOtherSide(ps, |ps|, ClosedSide(a), OpenedSide(a), symbol, cfg, verdict, k);
    HoldsPositionAppend(survivors, added, symbol, cfg.magicNumber, OpenedSide(a));
    HoldsPositionAppend(survivors, added, symbol, cfg.magicNumber, ClosedSide(a));
    HoldsPositionSingle(newcomer, symbol, cfg.magicNumber, OpenedSide(a));
    HoldsPositionSingle(newcomer, symbol, cfg.magicNumber, ClosedSide(a));
    if forall j :: k <= j < k + |MatchIndices(ps, |ps|, symbol, cfg.magicNumber, ClosedSide(a))| ==> verdict(j) {
      AcceptedClosesClearSide(ps, |ps|, ClosedSide(a), symbol, cfg, verdict, k);
    }
  }

  /** Once a reaction's opening deal has been accepted, a later bar with the
      same signal sends no second opening deal: it only offsets the other
      side again. */
  lemma NextSignalDoesNotReopen(a: Action, ps: seq<Position>, q: Quote, q': Quote, symbol: string, point: real,
                                cfg: Config, verdict: nat -> bool, k: nat)
    requires a != Stay
    requires verdict(k + |CloseRequests(ps, |ps|, ClosedSide(a), q, symbol, cfg)|)
    ensures var after := TickPositions(a, ps, q, symbol, point, cfg, verdict, k);
            TickRequests(a, after, q', symbol, point, cfg) == CloseRequests(after, |after|, ClosedSide(a), q', symbol, cfg)
  {
    TickClearsClosedSide(a, ps, q, symbol, point, cfg, verdict, k);
    var after := TickPositions(a, ps, q, symbol, point, cfg, verdict, k);
    var closes := CloseRequests(after, |after|, ClosedSide(a), q', symbol, cfg);
    assert closes + [] == closes;
  }

  /** How the steps of a reaction compose into the tick's outcome: the close
      pass for the closed side, then the existence test on the list it left,
      then the opening deal when that test fails. */
  lemma ReactionOutcome(a: Action, ps0: seq<Position>, j0: seq<TradeRequest>, survivors: seq<Position>, held: bool,
                        journal: seq<TradeRequest>, positions: seq<Position>,
                        q: Quote, symbol: string, point: real, cfg: Config, verdict: nat -> bool)
    requires a != Stay
    requires survivors == Survivors(ps0, |ps0|, ClosedSide(a), symbol, cfg, verdict, |j0|)
    requires held <==> HoldsPosition(ps0, symbol, cfg.magicNumber, OpenedSide(a))
    requires var closes := CloseRequests(ps0, |ps0|, ClosedSide(a), q, symbol, cfg);
             var request := OpenRequest(OpeningOrderType(OpenedSide(a)), q, symbol, point, cfg);
             var opening := |j0 + closes|;
             && journal == j0 + closes + (if held then [] else [request])
             && positions == survivors + (if !held && verdict(opening) then [NewPosition(request, opening)] else [])
    ensures journal == j0 + TickRequests(a, ps0, q, symbol, point, cfg)
    ensures positions == TickPositions(a, ps0, q, symbol, point, cfg, verdict, |j0|)
  {
    var closes := CloseRequests(ps0, |ps0|, ClosedSide(a), q, symbol, cfg);
    var request := OpenRequest(OpeningOrderType(OpenedSide(a)), q, symbol, point, cfg);
    ConcatAssoc(j0, closes, if held then [] else [request]);
  }

  class Advisor {
    const cfg: Config
    /** The chart's instrument and its point size. */
    const symbol: string
    const point: real
    const gateway: Gateway

    /** The indicator handle obtained at start-up. */
    var handle: int
    /** Open time of the last bar the tick handler went past the gate for. */
    var lastBarTime: int
    /** The band buffers, refilled on every processed bar. */
    var bbMiddle: seq<real>
    var bbUpper: seq<real>
    var bbLower: seq<real>

    /** The program's globals before start-up: all zero or empty. */
    constructor (cfg: Config, symbol: string, point: real, gateway: Gateway)
      ensures this.cfg == cfg && this.symbol == symbol && this.point == point && this.gateway == gateway
      ensures handle == 0 && lastBarTime == 0
      ensures bbMiddle == [] && bbUpper == [] && bbLower == []
    {
      this.cfg := cfg;
      this.symbol := symbol;
      this.point := point;
      this.gateway := gateway;
      handle := 0;
      lastBarTime := 0;
      bbMiddle, bbUpper, bbLower := [], [], [];
    }

    /** Start-up. bandsHandle is what the indicator factory returned and
        currentBarTime the open time of the bar then in progress. The handle is
        checked before the parameters; on success the gate is seeded with the
        bar in progress, so that bar is never processed. */
    method OnInit(bandsHandle: int, currentBarTime: int) returns (code: InitCode)
      modifies this
      ensures handle == bandsHandle
      ensures code == InitSucceeded <==> bandsHandle != InvalidHandle && ParametersValid(cfg)
      ensures bandsHandle == InvalidHandle ==> code == InitFailed(IndicatorUnavailable)
      ensures bandsHandle != InvalidHandle && !ParametersValid(cfg) ==> code == InitFailed(ParametersInvalid)
      ensures lastBarTime == if code == InitSucceeded then currentBarTime else old(lastBarTime)
      ensures bbMiddle == old(bbMiddle) && bbUpper == old(bbUpper) && bbLower == old(bbLower)
    {
      handle := bandsHandle;
      if handle == InvalidHandle {
        return InitFailed(IndicatorUnavailable);
      }
      if cfg.lotSize <= 0.0 || cfg.takeProfit <= 0 || cfg.stopLoss <= 0 {
        return InitFailed(ParametersInvalid);
      }
      lastBarTime := currentBarTime;
      return InitSucceeded;
    }

    /** Shutdown: the handle is released exactly when it is a valid one. */
    method OnDeinit() returns (release: bool)
      ensures release <==> handle != InvalidHandle
    {
      release := handle != InvalidHandle;
    }

    /** Whether the account holds a position of side t on this instrument with
        this strategy's magic number; scans from the highest index down. */
    method HasOpenPosition(t: PositionType) returns (found: bool)
      ensures found <==> HoldsPosition(gateway.positions, symbol, cfg.magicNumber, t)
    {
      var ps := gateway.positions;
      var i := |ps| - 1;
      while i >= 0
        invariant -1 <= i < |ps|
        invariant forall j :: i < j < |ps| ==> !Matches(ps[j], symbol, cfg.magicNumber, t)
      {
        var p := ps[i];
        if p.symbol == symbol && p.magic == cfg.magicNumber && p.ptype == t {
          return true;
        }
        i := i - 1;
      }
      return false;
    }

    /** Submits a closing deal for every matching position of side t, from the
        highest index down, and carries on after a rejected one. */
    method CloseAllPositions(t: PositionType, q: Quote)
      modifies gateway
      ensures gateway.journal == old(gateway.journal) +
              CloseRequests(old(gateway.positions), |old(gateway.positions)|, t, q, symbol, cfg)
      ensures gateway.positions ==
              Survivors(old(gateway.positions), |old(gateway.positions)|, t, symbol, cfg,
                        gateway.verdict, |old(gateway.journal)|)
    {
      ghost var ps0 := gateway.positions;
      ghost var j0 := gateway.journal;
      ghost var tail: seq<Position> := [];
      PassStarts(ps0, j0, t, q, symbol, cfg, gateway.verdict);
      var i := |gateway.positions| - 1;
      while i >= 0
        invariant -1 <= i < |ps0|
        invariant PassProgress(ps0, j0, i + 1, tail, gateway.journal, gateway.positions,
                               t, q, symbol, cfg, gateway.verdict)
      {
        PassVisits(ps0, j0, i, tail, gateway.journal, gateway.positions, t, q, symbol, cfg, gateway.verdict);
        var p := gateway.positions[i];
        if p.symbol == symbol && p.magic == cfg.magicNumber && p.ptype == t {
          PassClosesMatch(ps0, j0, i, tail, gateway.journal, gateway.positions, t, q, symbol, cfg, gateway.verdict);
          var request := CloseRequest(p, q, symbol, cfg);
          var ok := gateway.SendClose(request, i);
          tail := (if ok then [] else [p]) + tail;
        } else {
          PassSkipsOther(ps0, j0, i, tail, gateway.journal, gateway.positions, t, q, symbol, cfg, gateway.verdict);
          tail := [p] + tail;
        }
        i := i - 1;
      }
      PassEnds(ps0, j0, tail, gateway.journal, gateway.positions, t, q, symbol, cfg, gateway.verdict);
    }

    /** Submits the opening deal of type ot at the current quote. */
    method OpenPosition(ot: OrderType, q: Quote)
      modifies gateway
      ensures gateway.journal == old(gateway.journal) + [OpenRequest(ot, q, symbol, point, cfg)]
      ensures gateway.positions == old(gateway.positions) +
              (if gateway.verdict(|old(gateway.journal)|)
               then [NewPosition(OpenRequest(ot, q, symbol, point, cfg), |old(gateway.journal)|)] else [])
    {
      var price := EntryPrice(ot, q);
      var sl := StopLossPrice(ot, price, cfg.stopLoss, point);
      var tp := TakeProfitPrice(ot, price, cfg.takeProfit, point);
      var request := TradeRequest(TradeActionDeal, symbol, cfg.lotSize, ot, price, sl, tp,
                                  cfg.slippage, cfg.magicNumber, FillOrKill);
      var ok := gateway.SendOpen(request);
    }

    /** One tick. A tick on the bar already seen does nothing at all. Any other
        bar time is recorded before anything else, so a tick that fails later
        is not retried on that bar. A short read of any band line aborts before
        the broker is touched, and the reads after it are skipped. Otherwise the
        long rule, failing which the short rule, decides the reaction. */
    method OnTick(m: MarketData) returns (path: TickPath)
      modifies this, gateway
      ensures m.barTime == old(lastBarTime) ==>
                path == SameBar && unchanged(this) && unchanged(gateway)
      ensures m.barTime != old(lastBarTime) ==> lastBarTime == m.barTime && handle == old(handle)
      ensures m.barTime != old(lastBarTime) ==>
                bbMiddle == m.middle &&
                bbUpper == (if |m.middle| == BandDepth then m.upper else old(bbUpper)) &&
                bbLower == (if |m.middle| == BandDepth && |m.upper| == BandDepth then m.lower else old(bbLower))
      ensures m.barTime != old(lastBarTime) && !BandSnapshot(m.middle, m.upper, m.lower).Complete() ==>
                path == BandsUnavailable && unchanged(gateway)
      ensures m.barTime != old(lastBarTime) && BandSnapshot(m.middle, m.upper, m.lower).Complete() ==>
                var a := Decide(m.lastClose, m.quote, BandSnapshot(m.middle, m.upper, m.lower));
                && path == (match a case GoLong => LongHandled case GoShort => ShortHandled case Stay => NoSignal)
                && gateway.journal == old(gateway.journal) +
                     TickRequests(a, old(gateway.positions), m.quote, symbol, point, cfg)
                && gateway.positions ==
                     TickPositions(a, old(gateway.positions), m.quote, symbol, point, cfg,
                                   gateway.verdict, |old(gateway.journal)|)
    {
      var currentTime := m.barTime;
      if currentTime == lastBarTime {
        return SameBar;
      }
      lastBarTime := currentTime;

      bbMiddle := m.middle;
      if |bbMiddle| != BandDepth {
        return BandsUnavailable;
      }
      bbUpper := m.upper;
      if |bbUpper| != BandDepth {
        return BandsUnavailable;
      }
      bbLower := m.lower;
      if |bbLower| != BandDepth {
        return BandsUnavailable;
      }

      var q := m.quote;
      var lastClose := m.lastClose;
      var bands := BandSnapshot(bbMiddle, bbUpper, bbLower);
      ghost var ps0 := gateway.positions;
      ghost var j0 := gateway.journal;

      if lastClose <= bbLower[1] && q.bid > bbLower[1] {
        CloseAllPositions(PositionSell, q);
        ghost var survivors := gateway.positions;
        SurvivorsKeepOtherSide(ps0, |ps0|, PositionSell, PositionBuy, symbol, cfg, gateway.verdict, |j0|);
        var held := HasOpenPosition(PositionBuy);
        if !held {
          OpenPosition(OrderBuy, q);
        }
        ReactionOutcome(GoLong, ps0, j0, survivors, held, gateway.journal, gateway.positions,
                        q, symbol, point, cfg, gateway.verdict);
        path := LongHandled;
      } else if lastClose >= bbUpper[1] && q.ask < bbUpper[1] {
        CloseAllPositions(PositionBuy, q);
        ghost var survivors := gateway.positions;
        SurvivorsKeepOtherSide(ps0, |ps0|, PositionBuy, PositionSell, symbol, cfg, gateway.verdict, |j0|);
        var held := HasOpenPosition(PositionSell);
        if !held {
          OpenPosition(OrderSell, q);
        }
        ReactionOutcome(GoShort, ps0, j0, survivors, held, gateway.journal, gateway.positions,
                        q, symbol, point, cfg, gateway.verdict);
        path := ShortHandled;
      } else {
        path := NoSignal;
      }
    }
  }

  /** Because start-up seeds the gate with the bar then in progress, the first
      tick on that bar is ignored and submits nothing. */
  method StartupBarIsSkipped(adv: Advisor, bandsHandle: int, m: MarketData) returns (code: InitCode, path: TickPath)
    requires bandsHandle != InvalidHandle && ParametersValid(adv.cfg)
    modifies adv, adv.gateway
    ensures code == InitSucceeded && path == SameBar
    ensures adv.lastBarTime == m.barTime
    ensures adv.gateway.journal == old(adv.gateway.journal) && adv.gateway.positions == old(adv.gateway.positions)
  {
    code := adv.OnInit(bandsHandle, m.barTime);
    path := adv.OnTick(m);
  }

  /** A second tick on a bar already processed does nothing, whatever happened
      on the first one: the two ticks together submit and leave exactly what
      the first one alone does. */
  method RepeatedTickIsIgnored(adv: Advisor, m: MarketData, again: MarketData) returns (first: TickPath, second: TickPath)
    requires again.barTime == m.barTime
    modifies adv, adv.gateway
    ensures adv.lastBarTime == m.barTime
    ensures second == SameBar
    ensures m.barTime == old(adv.lastBarTime) ==> unchanged(adv.gateway)
    ensures m.barTime != old(adv.lastBarTime) && !BandSnapshot(m.middle, m.upper, m.lower).Complete() ==>
              unchanged(adv.gateway)
    ensures m.barTime != old(adv.lastBarTime) && BandSnapshot(m.middle, m.upper, m.lower).Complete() ==>
              var a := Decide(m.lastClose, m.quote, BandSnapshot(m.middle, m.upper, m.lower));
              && adv.gateway.journal == old(adv.gateway.journal) +
                   TickRequests(a, old(adv.gateway.positions), m.quote, adv.symbol, adv.point, adv.cfg)
              && adv.gateway.positions ==
                   TickPositions(a, old(adv.gateway.positions), m.quote, adv.symbol, adv.point, adv.cfg,
                                 adv.gateway.verdict, |old(adv.gateway.journal)|)
  {
    first := adv.OnTick(m);
    second := adv.OnTick(again);
  }
}
