/**
 Settlement of the current predictions against the declared result: keep the
 bought predictions (or all of them), count those whose finish order is
 exactly the result, pay the declared payout once per hit, charge a fixed
 stake per kept prediction, and report the hit rate and the return rate in
 percent. The result triple and the payout are read from the page's inputs,
 so they are parameters here.
 */
module Settlement {
  import opened Predictor

  /** The stake per prediction, in yen. */
  const BetUnit: int := 100

  /** A prediction is counted when it was bought or when all predictions are counted. */
  predicate Selected(p: Prediction, boughtOnly: bool)
  {
    p.bought || !boughtOnly
  }

  /** `[p for p in preds if (p["bought"] or not bought_only)]`. */
  function Targets(preds: seq<Prediction>, boughtOnly: bool): (r: seq<Prediction>)
    ensures |r| <= |preds|
  {
    if preds == [] then []
    else
      var last := preds[|preds| - 1];
      assert preds == preds[..|preds| - 1] + [last];
      Targets(preds[..|preds| - 1], boughtOnly) + (if Selected(last, boughtOnly) then [last] else [])
  }

  /** The number of predictions whose finish order is exactly `res`. */
  function Hits(tgt: seq<Prediction>, res: Combo): (r: nat)
    ensures r <= |tgt|
    ensures r == 0 <==> forall i :: 0 <= i < |tgt| ==> tgt[i].combo != res
  {
    if tgt == [] then 0
    else
      var init := tgt[..|tgt| - 1];
      assert forall i :: 0 <= i < |init| ==> init[i] == tgt[i];
      Hits(init, res) + (if tgt[|tgt| - 1].combo == res then 1 else 0)
  }

  /** Hit rate and return rate, both in percent. */
  datatype Rates = Rates(hitRate: real, returnRate: real)

  /** `calc(preds, bought_only)` without the final rounding to one decimal. */
  function Settle(preds: seq<Prediction>, boughtOnly: bool, res: Combo, payout: int): Rates
  {
    var tgt := Targets(preds, boughtOnly);
    if tgt == [] then Rates(0.0, 0.0)
    else
      var hit := Hits(tgt, res);
      Rates(hit as real / |tgt| as real * 100.0,
            (hit * payout) as real / (|tgt| * BetUnit) as real * 100.0)
  }

  /** The nested `calc`: filters the predictions, then counts hits and the
      paid-out amount in a loop. */
  method Calc(preds: seq<Prediction>, boughtOnly: bool, res: Combo, payout: int)
    returns (hitRate: real, returnRate: real)
    ensures Rates(hitRate, returnRate) == Settle(preds, boughtOnly, res, payout)
    ensures 0.0 <= hitRate <= 100.0
  {
    var tgt := Targets(preds, boughtOnly);
    if tgt == [] {
      return 0.0, 0.0;
    }
    var hit := 0;
    var spent := |tgt| * BetUnit;
    var ret := 0;
    for i := 0 to |tgt|
      invariant hit == Hits(tgt[..i], res)
      invariant ret == hit * payout
    {
      assert tgt[..i + 1][..i] == tgt[..i];
      if tgt[i].combo == res {
        assert (hit + 1) * payout == hit * payout + payout;
        hit := hit + 1;
        ret := ret + payout;
      }
    }
    assert tgt[..|tgt|] == tgt;
    hitRate := hit as real / |tgt| as real * 100.0;
    returnRate := ret as real / spent as real * 100.0;
    SettleBounds(preds, boughtOnly, res, payout);
  }

  // ---------------------------------------------------------------------
  // Properties of the settlement.

  /** With nothing to settle both rates are 0; otherwise the hit rate lies in
      [0, 100] and the return rate is the hit rate scaled by payout over stake. */
  lemma SettleBounds(preds: seq<Prediction>, boughtOnly: bool, res: Combo, payout: int)
    ensures var r := Settle(preds, boughtOnly, res, payout);
            var tgt := Targets(preds, boughtOnly);
            && (tgt == [] ==> r == Rates(0.0, 0.0))
            && 0.0 <= r.hitRate <= 100.0
            && r.returnRate == r.hitRate * payout as real / BetUnit as real
  {
    var r := Settle(preds, boughtOnly, res, payout);
    var tgt := Targets(preds, boughtOnly);
    if tgt == [] {
      assert r == Rates(0.0, 0.0);
      assert r.returnRate == r.hitRate * payout as real / BetUnit as real;
    } else {
      var hit := Hits(tgt, res);
      assert r == Rates(hit as real / |tgt| as real * 100.0,
                        (hit * payout) as real / (|tgt| * BetUnit) as real * 100.0);
      RatesOfCounts(hit, |tgt|, payout);
      assert r.returnRate == r.hitRate * payout as real / BetUnit as real;
    }
  }

  /** The two rates for `hit` hits among `n` settled predictions. */
  lemma RatesOfCounts(hit: int, n: int, payout: int)
    requires 0 <= hit <= n && n > 0
    ensures var hitRate := hit as real / n as real * 100.0;
            var returnRate := (hit * payout) as real / (n * BetUnit) as real * 100.0;
            && 0.0 <= hitRate <= 100.0
            && returnRate == hitRate * payout as real / BetUnit as real
  {
    var h, m, pay := hit as real, n as real, payout as real;
    assert (hit * payout) as real == h * pay;
    assert (n * BetUnit) as real == m * 100.0;
    RateArithmetic(h, m, pay);
  }

  /** The real arithmetic behind the two rates, for `h` hits out of `n`. */
  lemma RateArithmetic(h: real, n: real, pay: real)
    requires 0.0 <= h <= n && n > 0.0
    ensures 0.0 <= h / n * 100.0 <= 100.0
    ensures (h * pay) / (n * 100.0) * 100.0 == (h / n * 100.0) * pay / 100.0
    ensures h <= 1.0 ==> h / n * 100.0 <= 100.0 / n
  {
    var q := h / n;
    assert q * n == h;
    assert q <= 1.0;
    calc {
      (h * pay) / (n * 100.0) * 100.0;
      (h * pay) / n;
      (q * n * pay) / n;
      q * pay;
      (q * 100.0) * pay / 100.0;
    }
    if h <= 1.0 {
      calc {
        h / n * 100.0;
        (h * 100.0) / n;
      <= { assert h * 100.0 <= 100.0; }
        100.0 / n;
      }
    }
  }

  /** A prediction is settled exactly when it is one of the predictions and
      passes the filter. */
  lemma {:induction false} TargetsMembers(preds: seq<Prediction>, boughtOnly: bool)
    ensures forall p :: p in Targets(preds, boughtOnly) <==> p in preds && Selected(p, boughtOnly)
  {
    if preds != [] {
      var init := preds[..|preds| - 1];
      TargetsMembers(init, boughtOnly);
      assert preds == init + [preds[|preds| - 1]];
    }
  }

  /** Settling all predictions uses every prediction. */
  lemma {:induction false} TargetsAll(preds: seq<Prediction>)
    ensures Targets(preds, false) == preds
  {
    if preds != [] {
      TargetsAll(preds[..|preds| - 1]);
      assert preds == preds[..|preds| - 1] + [preds[|preds| - 1]];
    }
  }

  /** Settling bought predictions only uses exactly the bought ones. */
  lemma {:induction false} TargetsBought(preds: seq<Prediction>)
    ensures forall p :: p in Targets(preds, true) <==> p in preds && p.bought
    ensures (forall p :: p in preds ==> p.bought) ==> Targets(preds, true) == preds
    ensures (forall p :: p in preds ==> !p.bought) ==> Targets(preds, true) == []
  {
    TargetsMembers(preds, true);
    if preds != [] {
      TargetsBought(preds[..|preds| - 1]);
      assert preds == preds[..|preds| - 1] + [preds[|preds| - 1]];
    }
  }

  lemma {:induction false} TargetsAppend(a: seq<Prediction>, b: seq<Prediction>, boughtOnly: bool)
    ensures Targets(a + b, boughtOnly) == Targets(a, boughtOnly) + Targets(b, boughtOnly)
  {
    if b == [] {
      assert a + b == a;
    } else {
      var b' := b[..|b| - 1];
      assert (a + b)[..|a + b| - 1] == a + b';
      TargetsAppend(a, b', boughtOnly);
    }
  }

  lemma {:induction false} HitsAppend(a: seq<Prediction>, b: seq<Prediction>, res: Combo)
    ensures Hits(a + b, res) == Hits(a, res) + Hits(b, res)
  {
    if b == [] {
      assert a + b == a;
    } else {
      var b' := b[..|b| - 1];
      assert (a + b)[..|a + b| - 1] == a + b';
      HitsAppend(a, b', res);
    }
  }

  /** Reordering the predictions changes neither how many are settled nor how
      many hit. */
  lemma {:induction false} CountsOrderIndependent(a: seq<Prediction>, b: seq<Prediction>, boughtOnly: bool, res: Combo)
    requires multiset(a) == multiset(b)
    ensures |Targets(a, boughtOnly)| == |Targets(b, boughtOnly)|
    ensures Hits(Targets(a, boughtOnly), res) == Hits(Targets(b, boughtOnly), res)
    decreases |a|
  {
    if a == [] {
      assert |b| == |multiset(b)| == 0;
    } else {
      var x := a[|a| - 1];
      var a' := a[..|a| - 1];
      var b1, b2 := PickOut(a, b);
      CountsOrderIndependent(a', b1 + b2, boughtOnly, res);
      CountsRemoveOne(b1, x, b2, boughtOnly, res);
      assert a == a' + [x];
      TargetsAppend(a', [x], boughtOnly);
      HitsAppend(Targets(a', boughtOnly), Targets([x], boughtOnly), res);
    }
  }

  /** The last element of `a` sits somewhere in its permutation `b`; the rest
      of `b` is a permutation of the rest of `a`. */
  lemma PickOut(a: seq<Prediction>, b: seq<Prediction>) returns (b1: seq<Prediction>, b2: seq<Prediction>)
    requires multiset(a) == multiset(b) && a != []
    ensures b == b1 + [a[|a| - 1]] + b2
    ensures multiset(a[..|a| - 1]) == multiset(b1 + b2)
  {
    var x := a[|a| - 1];
    var a' := a[..|a| - 1];
    assert a == a' + [x];
    assert x in multiset(b);
    var j :| 0 <= j < |b| && b[j] == x;
    b1, b2 := b[..j], b[j + 1..];
    assert b == b1 + [x] + b2;
    assert multiset(b) == multiset(b1) + multiset{x} + multiset(b2);
    assert multiset(b1 + b2) == multiset(b1) + multiset(b2);
    assert multiset(b1 + b2) == multiset(b) - multiset{x};
    assert multiset(a') == multiset(a) - multiset{x};
  }

  /** Taking one element out of the middle loses what it alone contributes. */
  lemma CountsRemoveOne(b1: seq<Prediction>, x: Prediction, b2: seq<Prediction>, boughtOnly: bool, res: Combo)
    ensures |Targets(b1 + [x] + b2, boughtOnly)| == |Targets(b1 + b2, boughtOnly)| + |Targets([x], boughtOnly)|
    ensures Hits(Targets(b1 + [x] + b2, boughtOnly), res)
            == Hits(Targets(b1 + b2, boughtOnly), res) + Hits(Targets([x], boughtOnly), res)
  {
    var t1, tx, t2 := Targets(b1, boughtOnly), Targets([x], boughtOnly), Targets(b2, boughtOnly);
    TargetsAppend(b1 + [x], b2, boughtOnly);
    TargetsAppend(b1, [x], boughtOnly);
    TargetsAppend(b1, b2, boughtOnly);
    HitsAppend(t1 + tx, t2, res);
    HitsAppend(t1, tx, res);
    HitsAppend(t1, t2, res);
  }

  /** The settlement depends on the predictions as a collection, not on their order. */
  lemma SettleOrderIndependent(a: seq<Prediction>, b: seq<Prediction>, boughtOnly: bool, res: Combo, payout: int)
    requires multiset(a) == multiset(b)
    ensures Settle(a, boughtOnly, res, payout) == Settle(b, boughtOnly, res, payout)
  {
    CountsOrderIndependent(a, b, boughtOnly, res);
  }

  predicate DistinctCombos(s: seq<Prediction>)
  {
    forall i, j :: 0 <= i < j < |s| ==> s[i].combo != s[j].combo
  }

  /** When no two predictions name the same ordering at most one of them hits. */
  lemma {:induction false} HitsAtMostOne(s: seq<Prediction>, res: Combo)
    requires DistinctCombos(s)
    ensures Hits(s, res) <= 1
  {
    if s != [] {
      var init := s[..|s| - 1];
      assert forall i :: 0 <= i < |init| ==> init[i] == s[i];
      HitsAtMostOne(init, res);
      if s[|s| - 1].combo == res {
        assert Hits(init, res) == 0;
      }
    }
  }

  /** Filtering never adds hits. */
  lemma {:induction false} TargetsHits(s: seq<Prediction>, boughtOnly: bool, res: Combo)
    ensures Hits(Targets(s, boughtOnly), res) <= Hits(s, res)
  {
    if s != [] {
      var init := s[..|s| - 1];
      var last := s[|s| - 1];
      TargetsHits(init, boughtOnly, res);
      var tail := if Selected(last, boughtOnly) then [last] else [];
      HitsAppend(Targets(init, boughtOnly), tail, res);
    }
  }

  /** When at most one settled prediction can hit, the hit rate is at most
      one in the number of settled predictions. */
  lemma HitRateAtMostOne(preds: seq<Prediction>, boughtOnly: bool, res: Combo, payout: int)
    requires DistinctCombos(preds)
    ensures var tgt := Targets(preds, boughtOnly);
            && Hits(tgt, res) <= 1
            && (tgt != [] ==> Settle(preds, boughtOnly, res, payout).hitRate <= 100.0 / |tgt| as real)
  {
    var tgt := Targets(preds, boughtOnly);
    HitsAtMostOne(preds, res);
    TargetsHits(preds, boughtOnly, res);
    if tgt != [] {
      var n := |tgt| as real;
      var h := Hits(tgt, res) as real;
      assert Settle(preds, boughtOnly, res, payout).hitRate == h / n * 100.0;
      RateArithmetic(h, n, payout as real);
    }
  }

  /** For a fresh prediction on boats with different lanes at most one bet can
      hit, whichever predictions are settled. */
  lemma PredictedAtMostOneHit(boats: seq<Scoring.Boat>, boughtOnly: bool, res: Combo, payout: int)
    requires DistinctLanes(boats)
    requires Predicted(boats).Ok?
    ensures var preds := Predicted(boats).preds;
            var tgt := Targets(preds, boughtOnly);
            && Hits(tgt, res) <= 1
            && (tgt != [] ==> Settle(preds, boughtOnly, res, payout).hitRate <= 100.0 / |tgt| as real)
  {
    var preds := Predicted(boats).preds;
    PredictedCombos(boats);
    assert DistinctCombos(preds);
    HitRateAtMostOne(preds, boughtOnly, res, payout);
  }

  /** The predictor's own bets are none of them bought, so settling the bought
      bets of that list gives (0, 0). */
  lemma FreshPredictionsUnbought(boats: seq<Scoring.Boat>, res: Combo, payout: int)
    requires Predicted(boats).Ok?
    ensures Settle(Predicted(boats).preds, true, res, payout) == Rates(0.0, 0.0)
  {
    PredictedShape(boats);
    TargetsBought(Predicted(boats).preds);
  }
}
