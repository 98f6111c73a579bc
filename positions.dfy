/** The advisor's view of the broker's position list: which entries belong to
    it, and what one descending close-all pass over the list submits and leaves
    behind. The list is indexed from 0 and the pass visits the highest index
    first, so the pass is described over the entries below an index n,
    peeling off entry n - 1 first; the whole pass is the one with n = |ps|. */
module Positions {
  import opened Market
  import opened Orders

  /** The entry is on this instrument, carries this strategy's magic number and
      is of side t. */
  predicate Matches(p: Position, symbol: string, magic: int, t: PositionType)
  {
    p.symbol == symbol && p.magic == magic && p.ptype == t
  }

  /** Some entry of the list matches. */
  predicate HoldsPosition(ps: seq<Position>, symbol: string, magic: int, t: PositionType)
  {
    exists j :: 0 <= j < |ps| && Matches(ps[j], symbol, magic, t)
  }

  /** The indices below n of the matching entries, highest first. */
  function MatchIndices(ps: seq<Position>, n: nat, symbol: string, magic: int, t: PositionType): (r: seq<nat>)
    requires n <= |ps|
    ensures forall k :: 0 <= k < |r| ==> r[k] < n && Matches(ps[r[k]], symbol, magic, t)
    decreases n
  {
    if n == 0 then []
    else if Matches(ps[n - 1], symbol, magic, t) then [n - 1] + MatchIndices(ps, n - 1, symbol, magic, t)
    else MatchIndices(ps, n - 1, symbol, magic, t)
  }

  /** Every matching index below n is listed. */
  lemma {:induction false} MatchIndicesComplete(ps: seq<Position>, n: nat, symbol: string, magic: int, t: PositionType)
    requires n <= |ps|
    ensures forall j :: 0 <= j < n && Matches(ps[j], symbol, magic, t) ==> j in MatchIndices(ps, n, symbol, magic, t)
    decreases n
  {
    if n > 0 {
      MatchIndicesComplete(ps, n - 1, symbol, magic, t);
    }
  }

  predicate Descending(r: seq<nat>)
  {
    forall a, b :: 0 <= a < b < |r| ==> r[a] > r[b]
  }

  /** The listed indices run strictly downwards, so each appears once. */
  lemma {:induction false} MatchIndicesDescending(ps: seq<Position>, n: nat, symbol: string, magic: int, t: PositionType)
    requires n <= |ps|
    ensures Descending(MatchIndices(ps, n, symbol, magic, t))
    decreases n
  {
    if n > 0 {
      MatchIndicesDescending(ps, n - 1, symbol, magic, t);
      var r' := MatchIndices(ps, n - 1, symbol, magic, t);
      if Matches(ps[n - 1], symbol, magic, t) {
        var r := [n - 1] + r';
        assert MatchIndices(ps, n, symbol, magic, t) == r;
        forall a, b | 0 <= a < b < |r|
          ensures r[a] > r[b]
        {
          assert r[b] == r'[b - 1] && r'[b - 1] < n - 1;
          if a > 0 {
            assert r[a] == r'[a - 1] && r'[a - 1] > r'[b - 1];
          } else {
            assert r[a] == n - 1;
          }
        }
      }
    }
  }

  /** The requests a close-all pass for side t submits while it visits the
      entries below n, in submission order: one closing deal per matching
      entry, starting from the highest index. */
  function CloseRequests(ps: seq<Position>, n: nat, t: PositionType, q: Quote, symbol: string, cfg: Config): seq<TradeRequest>
    requires n <= |ps|
    decreases n
  {
    if n == 0 then []
    else
      (if Matches(ps[n - 1], symbol, cfg.magicNumber, t) then [CloseRequest(ps[n - 1], q, symbol, cfg)] else [])
      + CloseRequests(ps, n - 1, t, q, symbol, cfg)
  }

  /** What the entries below n become after a close-all pass for side t visits
      them, when the broker's answer to submission number k is verdict(k) and
      the pass makes its first submission there as number k: a matching entry
      whose closing deal is accepted disappears, every other entry stays in
      its place relative to the others. */
  function Survivors(ps: seq<Position>, n: nat, t: PositionType, symbol: string, cfg: Config,
                     verdict: nat -> bool, k: nat): seq<Position>
    requires n <= |ps|
    decreases n
  {
    if n == 0 then []
    else
      var hit := Matches(ps[n - 1], symbol, cfg.magicNumber, t);
      Survivors(ps, n - 1, t, symbol, cfg, verdict, if hit then k + 1 else k)
      + (if hit && verdict(k) then [] else [ps[n - 1]])
  }

  /** The entries that do not match side t, in list order. */
  function Untouched(ps: seq<Position>, t: PositionType, symbol: string, magic: int): seq<Position>
    decreases |ps|
  {
    if ps == [] then []
    else
      var n := |ps| - 1;
      Untouched(ps[..n], t, symbol, magic) + (if Matches(ps[n], symbol, magic, t) then [] else [ps[n]])
  }

  lemma ConcatAssoc<T>(a: seq<T>, b: seq<T>, c: seq<T>)
    ensures a + (b + c) == (a + b) + c
  {
  }

  /** How the list looks around index i while the pass is at i, with the entries
      above i already replaced by tail. */
  lemma SplitAt<T>(s: seq<T>, i: nat, tail: seq<T>)
    requires i < |s|
    ensures (s[..i + 1] + tail)[i] == s[i]
    ensures (s[..i + 1] + tail)[..i] + (s[..i + 1] + tail)[i + 1..] == s[..i] + tail
    ensures s[..i + 1] + tail == s[..i] + ([s[i]] + tail)
  {
    assert s[..i + 1] == s[..i] + [s[i]];
  }

  /** Where a pass that started on ps0 with journal j0 stands once it has
      visited every entry from index i upwards: the list is ps0 below i followed
      by what the visited entries became (tail), and what remains to be
      submitted and to survive is the pass over the entries below i. */
  ghost predicate PassProgress(ps0: seq<Position>, j0: seq<TradeRequest>, i: nat, tail: seq<Position>,
                               journal: seq<TradeRequest>, positions: seq<Position>,
                               t: PositionType, q: Quote, symbol: string, cfg: Config, verdict: nat -> bool)
  {
    && i <= |ps0|
    && positions == ps0[..i] + tail
    && j0 + CloseRequests(ps0, |ps0|, t, q, symbol, cfg) == journal + CloseRequests(ps0, i, t, q, symbol, cfg)
    && Survivors(ps0, |ps0|, t, symbol, cfg, verdict, |j0|) ==
       Survivors(ps0, i, t, symbol, cfg, verdict, |journal|) + tail
  }

  lemma PassStarts(ps0: seq<Position>, j0: seq<TradeRequest>, t: PositionType, q: Quote, symbol: string,
                   cfg: Config, verdict: nat -> bool)
    ensures PassProgress(ps0, j0, |ps0|, [], j0, ps0, t, q, symbol, cfg, verdict)
  {
    assert ps0[..|ps0|] + [] == ps0;
    assert Survivors(ps0, |ps0|, t, symbol, cfg, verdict, |j0|) + [] ==
           Survivors(ps0, |ps0|, t, symbol, cfg, verdict, |j0|);
  }

  /** With every entry visited, the journal holds the whole pass's requests and
      the list its survivors. */
  lemma PassEnds(ps0: seq<Position>, j0: seq<TradeRequest>, tail: seq<Position>,
                 journal: seq<TradeRequest>, positions: seq<Position>,
                 t: PositionType, q: Quote, symbol: string, cfg: Config, verdict: nat -> bool)
    requires PassProgress(ps0, j0, 0, tail, journal, positions, t, q, symbol, cfg, verdict)
    ensures journal == j0 + CloseRequests(ps0, |ps0|, t, q, symbol, cfg)
    ensures positions == Survivors(ps0, |ps0|, t, symbol, cfg, verdict, |j0|)
  {
    assert ps0[..0] + tail == tail;
    assert journal + [] == journal;
    assert [] + tail == tail;
  }

  /** The entry the pass visits next is still the original one at that index. */
  lemma PassVisits(ps0: seq<Position>, j0: seq<TradeRequest>, i: nat, tail: seq<Position>,
                   journal: seq<TradeRequest>, positions: seq<Position>,
                   t: PositionType, q: Quote, symbol: string, cfg: Config, verdict: nat -> bool)
    requires PassProgress(ps0, j0, i + 1, tail, journal, positions, t, q, symbol, cfg, verdict)
    ensures i < |positions| && positions[i] == ps0[i]
  {
    assert ps0[..i + 1][i] == ps0[i];
  }

  /** Visiting a matching entry: one closing deal is recorded, and the entry
      leaves the list exactly when the broker accepts it. */
  lemma PassClosesMatch(ps0: seq<Position>, j0: seq<TradeRequest>, i: nat, tail: seq<Position>,
                        journal: seq<TradeRequest>, positions: seq<Position>,
                        t: PositionType, q: Quote, symbol: string, cfg: Config, verdict: nat -> bool)
    requires PassProgress(ps0, j0, i + 1, tail, journal, positions, t, q, symbol, cfg, verdict)
    requires Matches(ps0[i], symbol, cfg.magicNumber, t)
    ensures i < |positions|
    ensures var ok := verdict(|journal|);
            PassProgress(ps0, j0, i, (if ok then [] else [ps0[i]]) + tail,
                         journal + [CloseRequest(ps0[i], q, symbol, cfg)],
                         if ok then positions[..i] + positions[i + 1..] else positions,
                         t, q, symbol, cfg, verdict)
  {
    var ok := verdict(|journal|);
    var k := |journal|;
    var r := CloseRequest(ps0[i], q, symbol, cfg);
    var keep := if ok then [] else [ps0[i]];
    SplitAt(ps0, i, tail);
    assert CloseRequests(ps0, i + 1, t, q, symbol, cfg) == [r] + CloseRequests(ps0, i, t, q, symbol, cfg);
    ConcatAssoc(journal, [r], CloseRequests(ps0, i, t, q, symbol, cfg));
    assert Survivors(ps0, i + 1, t, symbol, cfg, verdict, k) ==
           Survivors(ps0, i, t, symbol, cfg, verdict, k + 1) + keep;
    ConcatAssoc(Survivors(ps0, i, t, symbol, cfg, verdict, k + 1), keep, tail);
    if ok {
      assert keep + tail == tail;
    }
  }

  /** Visiting any other entry records nothing and leaves it in place. */
  lemma PassSkipsOther(ps0: seq<Position>, j0: seq<TradeRequest>, i: nat, tail: seq<Position>,
                       journal: seq<TradeRequest>, positions: seq<Position>,
                       t: PositionType, q: Quote, symbol: string, cfg: Config, verdict: nat -> bool)
    requires PassProgress(ps0, j0, i + 1, tail, journal, positions, t, q, symbol, cfg, verdict)
    requires !Matches(ps0[i], symbol, cfg.magicNumber, t)
    ensures PassProgress(ps0, j0, i, [ps0[i]] + tail, journal, positions, t, q, symbol, cfg, verdict)
  {
    var k := |journal|;
    SplitAt(ps0, i, tail);
    assert CloseRequests(ps0, i + 1, t, q, symbol, cfg) == CloseRequests(ps0, i, t, q, symbol, cfg);
    assert Survivors(ps0, i + 1, t, symbol, cfg, verdict, k) ==
           Survivors(ps0, i, t, symbol, cfg, verdict, k) + [ps0[i]];
    ConcatAssoc(Survivors(ps0, i, t, symbol, cfg, verdict, k), [ps0[i]], tail);
  }

  /** The pass submits exactly one closing deal per matching entry, none for any
      other entry, in descending index order, whatever the broker answers. */
  lemma {:induction false} CloseRequestsPerMatch(ps: seq<Position>, n: nat, t: PositionType, q: Quote,
                                                 symbol: string, cfg: Config)
    requires n <= |ps|
    ensures var r := CloseRequests(ps, n, t, q, symbol, cfg);
            var idx := MatchIndices(ps, n, symbol, cfg.magicNumber, t);
            |r| == |idx| &&
            forall k :: 0 <= k < |r| ==> r[k] == CloseRequest(ps[idx[k]], q, symbol, cfg)
    decreases n
  {
    if n > 0 {
      CloseRequestsPerMatch(ps, n - 1, t, q, symbol, cfg);
      var r' := CloseRequests(ps, n - 1, t, q, symbol, cfg);
      var idx' := MatchIndices(ps, n - 1, symbol, cfg.magicNumber, t);
      if Matches(ps[n - 1], symbol, cfg.magicNumber, t) {
        var r := [CloseRequest(ps[n - 1], q, symbol, cfg)] + r';
        var idx := [n - 1] + idx';
        assert CloseRequests(ps, n, t, q, symbol, cfg) == r;
        assert MatchIndices(ps, n, symbol, cfg.magicNumber, t) == idx;
        forall k | 0 <= k < |r|
          ensures r[k] == CloseRequest(ps[idx[k]], q, symbol, cfg)
        {
          if k > 0 {
            assert r[k] == r'[k - 1] && idx[k] == idx'[k - 1];
          }
        }
      } else {
        assert CloseRequests(ps, n, t, q, symbol, cfg) == r';
        assert MatchIndices(ps, n, symbol, cfg.magicNumber, t) == idx';
      }
    }
  }

  /** Every closing deal of the pass is of the order type that offsets side t,
      has the offsetting price and carries the configured deviation and magic
      number with fill-or-kill. */
  lemma {:induction false} CloseRequestsOffsetSide(ps: seq<Position>, n: nat, t: PositionType, q: Quote,
                                                   symbol: string, cfg: Config)
    requires n <= |ps|
    ensures forall r :: r in CloseRequests(ps, n, t, q, symbol, cfg) ==>
              && r.otype == ClosingOrderType(t)
              && r.price == (if t == PositionBuy then q.bid else q.ask)
              && r.symbol == symbol && r.deviation == cfg.slippage
              && r.magic == cfg.magicNumber && r.filling == FillOrKill
    decreases n
  {
    if n > 0 {
      CloseRequestsOffsetSide(ps, n - 1, t, q, symbol, cfg);
    }
  }

  lemma HoldsPositionAppend(a: seq<Position>, b: seq<Position>, symbol: string, magic: int, t: PositionType)
    ensures HoldsPosition(a + b, symbol, magic, t) <==>
            HoldsPosition(a, symbol, magic, t) || HoldsPosition(b, symbol, magic, t)
  {
    if HoldsPosition(a + b, symbol, magic, t) {
      var j :| 0 <= j < |a + b| && Matches((a + b)[j], symbol, magic, t);
      if j < |a| {
        assert (a + b)[j] == a[j];
      } else {
        assert (a + b)[j] == b[j - |a|];
      }
    }
    if HoldsPosition(a, symbol, magic, t) {
      var j :| 0 <= j < |a| && Matches(a[j], symbol, magic, t);
      assert (a + b)[j] == a[j];
    }
    if HoldsPosition(b, symbol, magic, t) {
      var j :| 0 <= j < |b| && Matches(b[j], symbol, magic, t);
      assert (a + b)[|a| + j] == b[j];
    }
  }

  lemma HoldsPositionSingle(p: Position, symbol: string, magic: int, t: PositionType)
    ensures HoldsPosition([p], symbol, magic, t) <==> Matches(p, symbol, magic, t)
    ensures !HoldsPosition([], symbol, magic, t)
  {
    if Matches(p, symbol, magic, t) {
      assert [p][0] == p;
    }
  }

  /** Closing one side never changes whether the other side is held: the pass
      removes only entries of side t. */
  lemma {:induction false} SurvivorsKeepOtherSide(ps: seq<Position>, n: nat, t: PositionType, u: PositionType,
                                                  symbol: string, cfg: Config, verdict: nat -> bool, k: nat)
    requires n <= |ps| && u != t
    ensures HoldsPosition(Survivors(ps, n, t, symbol, cfg, verdict, k), symbol, cfg.magicNumber, u) <==>
            exists j :: 0 <= j < n && Matches(ps[j], symbol, cfg.magicNumber, u)
    decreases n
  {
    if n > 0 {
      var p := ps[n - 1];
      var hit := Matches(p, symbol, cfg.magicNumber, t);
      var k' := if hit then k + 1 else k;
      SurvivorsKeepOtherSide(ps, n - 1, t, u, symbol, cfg, verdict, k');
      var keep := if hit && verdict(k) then [] else [p];
      HoldsPositionAppend(Survivors(ps, n - 1, t, symbol, cfg, verdict, k'), keep, symbol, cfg.magicNumber, u);
      HoldsPositionSingle(p, symbol, cfg.magicNumber, u);
      assert HoldsPosition(keep, symbol, cfg.magicNumber, u) <==> Matches(p, symbol, cfg.magicNumber, u);
      if exists j :: 0 <= j < n && Matches(ps[j], symbol, cfg.magicNumber, u) {
        var j :| 0 <= j < n && Matches(ps[j], symbol, cfg.magicNumber, u);
        assert j == n - 1 || (0 <= j < n - 1 && Matches(ps[j], symbol, cfg.magicNumber, u));
      }
    }
  }

  lemma UntouchedSnoc(s: seq<Position>, x: Position, t: PositionType, symbol: string, magic: int)
    ensures Untouched(s + [x], t, symbol, magic) ==
            Untouched(s, t, symbol, magic) + (if Matches(x, symbol, magic, t) then [] else [x])
  {
    assert (s + [x])[..|s|] == s;
  }

  /** Every entry that does not match side t survives the pass, in the same
      order, and nothing else is added among them. */
  lemma {:induction false} SurvivorsKeepUntouched(ps: seq<Position>, n: nat, t: PositionType,
                                                  symbol: string, cfg: Config, verdict: nat -> bool, k: nat)
    requires n <= |ps|
    ensures Untouched(Survivors(ps, n, t, symbol, cfg, verdict, k), t, symbol, cfg.magicNumber) ==
            Untouched(ps[..n], t, symbol, cfg.magicNumber)
    decreases n
  {
    if n > 0 {
      var p := ps[n - 1];
      var hit := Matches(p, symbol, cfg.magicNumber, t);
      var k' := if hit then k + 1 else k;
      SurvivorsKeepUntouched(ps, n - 1, t, symbol, cfg, verdict, k');
      var s := Survivors(ps, n - 1, t, symbol, cfg, verdict, k');
      assert ps[..n] == ps[..n - 1] + [p];
      UntouchedSnoc(ps[..n - 1], p, t, symbol, cfg.magicNumber);
      if hit && verdict(k) {
        assert Survivors(ps, n, t, symbol, cfg, verdict, k) == s;
      } else {
        assert Survivors(ps, n, t, symbol, cfg, verdict, k) == s + [p];
        UntouchedSnoc(s, p, t, symbol, cfg.magicNumber);
      }
    }
  }

  /** When the broker accepts every closing deal of the pass, no entry of side t
      is left. */
  lemma {:induction false} AcceptedClosesClearSide(ps: seq<Position>, n: nat, t: PositionType,
                                                   symbol: string, cfg: Config, verdict: nat -> bool, k: nat)
    requires n <= |ps|
    requires forall j :: k <= j < k + |MatchIndices(ps, n, symbol, cfg.magicNumber, t)| ==> verdict(j)
    ensures !HoldsPosition(Survivors(ps, n, t, symbol, cfg, verdict, k), symbol, cfg.magicNumber, t)
    decreases n
  {
    if n > 0 {
      var hit := Matches(ps[n - 1], symbol, cfg.magicNumber, t);
      var k' := if hit then k + 1 else k;
      AcceptedClosesClearSide(ps, n - 1, t, symbol, cfg, verdict, k');
      var keep := if hit && verdict(k) then [] else [ps[n - 1]];
      HoldsPositionAppend(Survivors(ps, n - 1, t, symbol, cfg, verdict, k'), keep, symbol, cfg.magicNumber, t);
      HoldsPositionSingle(ps[n - 1], symbol, cfg.magicNumber, t);
    }
  }

  /** When the broker rejects every closing deal of the pass, the list is left
      exactly as it was. */
  lemma {:induction false} RejectedClosesKeepAll(ps: seq<Position>, n: nat, t: PositionType,
                                                 symbol: string, cfg: Config, verdict: nat -> bool, k: nat)
    requires n <= |ps|
    requires forall j :: k <= j < k + |MatchIndices(ps, n, symbol, cfg.magicNumber, t)| ==> !verdict(j)
    ensures Survivors(ps, n, t, symbol, cfg, verdict, k) == ps[..n]
    decreases n
  {
    if n > 0 {
      var hit := Matches(ps[n - 1], symbol, cfg.magicNumber, t);
      var k' := if hit then k + 1 else k;
      var m := |MatchIndices(ps, n - 1, symbol, cfg.magicNumber, t)|;
      assert |MatchIndices(ps, n, symbol, cfg.magicNumber, t)| == m + (if hit then 1 else 0);
      assert hit ==> !verdict(k);
      assert forall j :: k' <= j < k' + m ==> !verdict(j);
      RejectedClosesKeepAll(ps, n - 1, t, symbol, cfg, verdict, k');
      assert ps[..n] == ps[..n - 1] + [ps[n - 1]];
    }
  }

  /** How many of the c submissions numbered from k the broker accepts. */
  function AcceptedCount(verdict: nat -> bool, k: nat, c: nat): nat
    decreases c
  {
    if c == 0 then 0 else (if verdict(k) then 1 else 0) + AcceptedCount(verdict, k + 1, c - 1)
  }

  /** Whatever mix of answers the broker gives, the pass removes exactly one
      entry per accepted closing deal and no other. */
  lemma {:induction false} SurvivorsLength(ps: seq<Position>, n: nat, t: PositionType,
                                           symbol: string, cfg: Config, verdict: nat -> bool, k: nat)
    requires n <= |ps|
    ensures |Survivors(ps, n, t, symbol, cfg, verdict, k)| +
            AcceptedCount(verdict, k, |MatchIndices(ps, n, symbol, cfg.magicNumber, t)|) == n
    decreases n
  {
    if n > 0 {
      var hit := Matches(ps[n - 1], symbol, cfg.magicNumber, t);
      SurvivorsLength(ps, n - 1, t, symbol, cfg, verdict, if hit then k + 1 else k);
    }
  }
}
