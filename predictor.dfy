/**
 The predictor behind the page's "predict" button: score every boat against
 the race's average exhibition time, rank the boats by score, take the top
 three as the favourites (honmei, 本命), pick as longshot (ana, 穴) the
 strongest motor among the others, and emit nine finish-order bets: the six
 orderings of the favourites (本線, the main line) and three fixed longshot
 orderings.
 */
module Predictor {
  import opened Scoring
  import opened StableSort

  /** A boat together with the score written into its record. */
  datatype Scored = Scored(boat: Boat, score: real)

  function ScoreKey(x: Scored): real { x.score }
  function Motor2Key(x: Scored): real { x.boat.motor2 }
  function LaneOf(x: Scored): int { x.boat.lane }

  /** A finish-order guess: the lanes of first, second and third place. */
  datatype Combo = Combo(first: int, second: int, third: int)

  /** 本線 (main line) or 穴 (longshot). */
  datatype Kind = Mainline | Longshot

  datatype Prediction = Prediction(kind: Kind, combo: Combo, odds: real, bought: bool)

  /** Raised by the page as an index error when no boat is left for the longshot. */
  datatype PredictError = NoLongshotCandidate

  datatype Outcome = Ok(preds: seq<Prediction>) | Failed(error: PredictError)

  const MainlineOdds: real := 12.0
  const LongshotOdds1: real := 45.0
  const LongshotOdds2: real := 60.0
  const LongshotOdds3: real := 38.0

  /** The race's boats have pairwise different lanes (the race card numbers them). */
  predicate DistinctLanes(boats: seq<Boat>)
  {
    forall i, j :: 0 <= i < j < |boats| ==> boats[i].lane != boats[j].lane
  }

  predicate HasLane(boats: seq<Boat>, lane: int)
  {
    exists b :: b in boats && b.lane == lane
  }

  predicate Mentions(c: Combo, lane: int)
  {
    c.first == lane || c.second == lane || c.third == lane
  }

  predicate Distinct3(c: Combo)
  {
    c.first != c.second && c.first != c.third && c.second != c.third
  }

  predicate LanesAmong(c: Combo, lanes: set<int>)
  {
    c.first in lanes && c.second in lanes && c.third in lanes
  }

  /** Three different lanes, each of a boat in the race. */
  predicate ValidCombo(c: Combo, boats: seq<Boat>)
  {
    Distinct3(c) && HasLane(boats, c.first) && HasLane(boats, c.second) && HasLane(boats, c.third)
  }

  function TotalTime(boats: seq<Boat>): real
  {
    if boats == [] then 0.0 else TotalTime(boats[..|boats| - 1]) + boats[|boats| - 1].time
  }

  /** The sum of the exhibition times divided by a fixed 6, whatever the number of boats. */
  function AverageTime(boats: seq<Boat>): real
  {
    TotalTime(boats) / 6.0
  }

  function ScoreAll(boats: seq<Boat>, avg: real): seq<Scored>
  {
    seq(|boats|, i requires 0 <= i < |boats| => Scored(boats[i], Score(boats[i], avg)))
  }

  /** The boats by non-increasing score, ties in input order. */
  function Ranking(boats: seq<Boat>): seq<Scored>
  {
    SortDesc(ScoreAll(boats, AverageTime(boats)), ScoreKey)
  }

  /** `s[:3]`. */
  function Honmei(s: seq<Scored>): seq<Scored>
  {
    s[..if |s| < 3 then |s| else 3]
  }

  /** `[b for b in s if b not in h]`, membership by value as for Python's dictionaries. */
  function Others(s: seq<Scored>, h: seq<Scored>): seq<Scored>
  {
    if s == [] then []
    else (if s[0] !in h then [s[0]] else []) + Others(s[1..], h)
  }

  /** The longshot: the first of the non-favourites sorted by 2-place motor rate, descending. */
  function Ana(s: seq<Scored>): Scored
    requires Others(s, Honmei(s)) != []
  {
    var t := SortDesc(Others(s, Honmei(s)), Motor2Key);
    assert |multiset(t)| == |t|;
    t[0]
  }

  /** `itertools.permutations([a, b, c], 3)`, in the order it yields them. */
  function Permutations(a: int, b: int, c: int): seq<Combo>
  {
    [Combo(a, b, c), Combo(a, c, b), Combo(b, a, c), Combo(b, c, a), Combo(c, a, b), Combo(c, b, a)]
  }

  /** One main-line bet per combination, in order, at the fixed odds, not bought. */
  function AsMainBets(cs: seq<Combo>): (r: seq<Prediction>)
    ensures |r| == |cs|
    ensures forall i :: 0 <= i < |cs| ==> r[i] == Prediction(Mainline, cs[i], MainlineOdds, false)
  {
    if cs == [] then []
    else AsMainBets(cs[..|cs| - 1]) + [Prediction(Mainline, cs[|cs| - 1], MainlineOdds, false)]
  }

  function LongshotBets(ana: int, h0: int, h1: int): seq<Prediction>
  {
    [ Prediction(Longshot, Combo(ana, h0, h1), LongshotOdds1, false),
      Prediction(Longshot, Combo(ana, h1, h0), LongshotOdds2, false),
      Prediction(Longshot, Combo(h0, ana, h1), LongshotOdds3, false) ]
  }

  /** The nine bets for favourites on lanes `l0`, `l1`, `l2` (in ranking
      order) and the longshot on lane `la`. */
  function Bets(l0: int, l1: int, l2: int, la: int): seq<Prediction>
  {
    AsMainBets(Permutations(l0, l1, l2)) + LongshotBets(la, l0, l1)
  }

  /** What one press of the button produces for the given boats; it can
      succeed only when at least four boats are ranked. */
  function Predicted(boats: seq<Boat>): (r: Outcome)
    ensures r.Ok? ==> |Ranking(boats)| >= 4 && Others(Ranking(boats), Honmei(Ranking(boats))) != []
  {
    var s := Ranking(boats);
    if Others(s, Honmei(s)) == [] then Failed(NoLongshotCandidate)
    else
      OthersNonEmpty(s);
      Ok(Bets(s[0].boat.lane, s[1].boat.lane, s[2].boat.lane, Ana(s).boat.lane))
  }

  /** The scoring loop: writes each boat's score against `avg` into its record. */
  method ScoreBoats(boats: seq<Boat>, avg: real) returns (scored: seq<Scored>)
    ensures scored == ScoreAll(boats, avg)
  {
    scored := [];
    for i := 0 to |boats|
      invariant |scored| == i
      invariant forall j :: 0 <= j < i ==> scored[j] == Scored(boats[j], Score(boats[j], avg))
    {
      scored := scored + [Scored(boats[i], Score(boats[i], avg))];
    }
  }

  /** The loop over `itertools.permutations`: one main-line bet per ordering. */
  method MainBets(perms: seq<Combo>) returns (preds: seq<Prediction>)
    ensures preds == AsMainBets(perms)
  {
    preds := [];
    for i := 0 to |perms|
      invariant preds == AsMainBets(perms[..i])
    {
      assert perms[..i + 1][..i] == perms[..i];
      preds := preds + [Prediction(Mainline, perms[i], MainlineOdds, false)];
    }
    assert perms[..|perms|] == perms;
  }

  /** The bets of the prediction block: the main line from the permutations
      of the favourites' lanes, cut to its first six, then the three longshot
      bets. */
  method BuildBets(l0: int, l1: int, l2: int, la: int) returns (preds: seq<Prediction>)
    ensures preds == Bets(l0, l1, l2, la)
  {
    preds := MainBets(Permutations(l0, l1, l2));
    preds := preds[..if |preds| < 6 then |preds| else 6];
    assert preds == AsMainBets(Permutations(l0, l1, l2));
    preds := preds + LongshotBets(la, l0, l1);
  }

  /** The prediction block: scores the boats, ranks them, picks the favourites
      and the longshot, appends the six main-line bets, truncates to six and
      appends the three longshot bets. */
  method Predict(boats: seq<Boat>) returns (r: Outcome)
    ensures r == Predicted(boats)
    ensures r.Ok? ==> |r.preds| == 9 && forall p :: p in r.preds ==> !p.bought
  {
    var avg := AverageTime(boats);
    var scored := ScoreBoats(boats, avg);
    var s := SortDesc(scored, ScoreKey);
    assert s == Ranking(boats);
    var honmei := s[..if |s| < 3 then |s| else 3];
    assert honmei == Honmei(s);
    var rest := Others(s, honmei);
    if rest == [] {
      return Failed(NoLongshotCandidate);
    }
    OthersNonEmpty(s);
    var ana := Ana(s);
    var l0, l1, l2, la := honmei[0].boat.lane, honmei[1].boat.lane, honmei[2].boat.lane, ana.boat.lane;
    PredictedOk(boats);
    var preds := BuildBets(l0, l1, l2, la);
    r := Ok(preds);
    BetsShape(l0, l1, l2, la);
  }

  /** A successful prediction is the nine bets on the ranking's first three
      lanes and the longshot's lane. */
  lemma PredictedOk(boats: seq<Boat>)
    requires Others(Ranking(boats), Honmei(Ranking(boats))) != []
    ensures var s := Ranking(boats);
            && |s| >= 4
            && Predicted(boats) == Ok(Bets(s[0].boat.lane, s[1].boat.lane, s[2].boat.lane, Ana(s).boat.lane))
  {
    OthersNonEmpty(Ranking(boats));
  }

  // ---------------------------------------------------------------------
  // Helper facts about the non-favourites.

  lemma {:induction false} OthersAllIn(s: seq<Scored>, h: seq<Scored>)
    requires forall x :: x in s ==> x in h
    ensures Others(s, h) == []
  {
    if s != [] {
      OthersAllIn(s[1..], h);
    }
  }

  lemma {:induction false} OthersNoneIn(s: seq<Scored>, h: seq<Scored>)
    requires forall x :: x in s ==> x !in h
    ensures Others(s, h) == s
  {
    if s != [] {
      OthersNoneIn(s[1..], h);
      assert s == [s[0]] + s[1..];
    }
  }

  lemma {:induction false} OthersAppend(a: seq<Scored>, b: seq<Scored>, h: seq<Scored>)
    ensures Others(a + b, h) == Others(a, h) + Others(b, h)
  {
    if a != [] {
      var head := if a[0] !in h then [a[0]] else [];
      assert (a + b)[0] == a[0];
      assert (a + b)[1..] == a[1..] + b;
      OthersAppend(a[1..], b, h);
      calc {
        Others(a + b, h);
        head + Others(a[1..] + b, h);
        head + (Others(a[1..], h) + Others(b, h));
        (head + Others(a[1..], h)) + Others(b, h);
      }
    } else {
      assert a + b == b;
    }
  }

  lemma {:induction false} OthersSubset(s: seq<Scored>, h: seq<Scored>)
    ensures forall x :: x in Others(s, h) ==> x in s && x !in h
  {
    if s != [] {
      OthersSubset(s[1..], h);
    }
  }

  /** A longshot candidate exists only when there are more than three boats;
      then the favourites are exactly three. */
  lemma OthersNonEmpty(s: seq<Scored>)
    requires Others(s, Honmei(s)) != []
    ensures |s| >= 4 && |Honmei(s)| == 3
  {
    if |s| <= 3 {
      assert Honmei(s) == s;
      OthersAllIn(s, Honmei(s));
    }
  }

  /** With different lanes the non-favourites are the rest of the ranking. */
  lemma OthersOfDistinct(s: seq<Scored>)
    requires DistinctBy(s, LaneOf) && |s| >= 3
    ensures Others(s, Honmei(s)) == s[3..]
  {
    var h := Honmei(s);
    assert s == s[..3] + s[3..];
    OthersAppend(s[..3], s[3..], h);
    OthersAllIn(s[..3], h);
    forall x | x in s[3..] ensures x !in h {
      var m :| 3 <= m < |s| && s[m] == x;
      forall n | 0 <= n < 3 ensures h[n] != x {
        assert LaneOf(s[n]) != LaneOf(s[m]);
      }
    }
    OthersNoneIn(s[3..], h);
  }

  // ---------------------------------------------------------------------
  // The ranking.

  lemma RankingFromBoats(boats: seq<Boat>)
    ensures |Ranking(boats)| == |boats|
    ensures forall x :: x in Ranking(boats) ==> x.boat in boats && x.score == Score(x.boat, AverageTime(boats))
  {
    var r := Ranking(boats);
    var sc := ScoreAll(boats, AverageTime(boats));
    assert |multiset(r)| == |r| && |multiset(sc)| == |sc|;
    forall x | x in r ensures x.boat in boats && x.score == Score(x.boat, AverageTime(boats)) {
      assert x in multiset(r);
      assert x in sc;
    }
  }

  /** `s` is a permutation of the scored boats, ordered by non-increasing
      score, and boats with equal scores keep their input order. */
  lemma RankingIsStableSort(boats: seq<Boat>, k: real)
    ensures multiset(Ranking(boats)) == multiset(ScoreAll(boats, AverageTime(boats)))
    ensures SortedDesc(Ranking(boats), ScoreKey)
    ensures WithKey(Ranking(boats), ScoreKey, k) == WithKey(ScoreAll(boats, AverageTime(boats)), ScoreKey, k)
  {
    SortDescStable(ScoreAll(boats, AverageTime(boats)), ScoreKey, k);
  }

  lemma RankingDistinct(boats: seq<Boat>)
    requires DistinctLanes(boats)
    ensures DistinctBy(Ranking(boats), LaneOf)
  {
    var sc := ScoreAll(boats, AverageTime(boats));
    assert DistinctBy(sc, LaneOf);
    SortDescDistinct(sc, ScoreKey, LaneOf);
  }

  // ---------------------------------------------------------------------
  // Properties of the prediction.

  /** The prediction fails exactly when no boat is left besides the
      favourites: always with fewer than four boats, never with four or more
      boats on different lanes. */
  lemma PredictedFailure(boats: seq<Boat>)
    ensures |boats| < 4 ==> Predicted(boats).Failed?
    ensures DistinctLanes(boats) ==> (Predicted(boats).Ok? <==> |boats| >= 4)
  {
    var s := Ranking(boats);
    RankingFromBoats(boats);
    if Others(s, Honmei(s)) != [] {
      OthersNonEmpty(s);
    }
    if DistinctLanes(boats) && |boats| >= 4 {
      RankingDistinct(boats);
      OthersOfDistinct(s);
    }
  }

  /** The longshot is a non-favourite with the highest 2-place motor rate among
      the non-favourites, the earliest in the ranking on ties. */
  lemma LongshotChoice(boats: seq<Boat>)
    requires Predicted(boats).Ok?
    ensures var s := Ranking(boats);
            && Others(s, Honmei(s)) != []
            && Ana(s) in s && Ana(s) !in Honmei(s)
            && exists i :: IsEarliestMax(Others(s, Honmei(s)), Motor2Key, i) && Others(s, Honmei(s))[i] == Ana(s)
  {
    var s := Ranking(boats);
    var rest := Others(s, Honmei(s));
    SortDescHead(rest, Motor2Key);
    OthersSubset(s, Honmei(s));
    var t := SortDesc(rest, Motor2Key);
    assert |multiset(t)| == |t|;
    assert t[0] in multiset(rest);
  }

  /** Nine bets, none bought: first the six orderings of the favourites' lanes
      at odds 12, then three longshot bets at odds 45, 60 and 38. */
  lemma BetsShape(l0: int, l1: int, l2: int, la: int)
    ensures var p := Bets(l0, l1, l2, la);
            && |p| == 9
            && (forall q :: q in p ==> !q.bought)
            && (forall i :: 0 <= i < 6 ==> p[i].kind == Mainline && p[i].odds == 12.0)
            && (forall i :: 6 <= i < 9 ==> p[i].kind == Longshot)
            && p[6].odds == 45.0 && p[7].odds == 60.0 && p[8].odds == 38.0
  {
  }

  /** With three different favourite lanes the first six bets are exactly
      the orderings of those lanes: a combination is among them if and only if
      it names three different lanes, all of them favourites. */
  lemma BetsMainline(l0: int, l1: int, l2: int, la: int)
    requires l0 != l1 && l0 != l2 && l1 != l2
    ensures var p := Bets(l0, l1, l2, la);
            && |p| == 9
            && forall c :: (exists i :: 0 <= i < 6 && p[i].combo == c) <==> Distinct3(c) && LanesAmong(c, {l0, l1, l2})
  {
    var p := Bets(l0, l1, l2, la);
    var perms := Permutations(l0, l1, l2);
    assert forall i :: 0 <= i < 6 ==> p[i].combo == perms[i];
    forall c | Distinct3(c) && LanesAmong(c, {l0, l1, l2}) ensures exists i :: 0 <= i < 6 && p[i].combo == c {
      assert c in perms;
    }
  }

  /** With four different lanes every bet names three different lanes among
      them, no two bets name the same ordering, and the longshot's lane
      appears in each of the last three bets and in none of the first six. */
  lemma BetsCombos(l0: int, l1: int, l2: int, la: int)
    requires l0 != l1 && l0 != l2 && l1 != l2
    requires la != l0 && la != l1 && la != l2
    ensures var p := Bets(l0, l1, l2, la);
            && |p| == 9
            && (forall i :: 0 <= i < 9 ==> Distinct3(p[i].combo) && LanesAmong(p[i].combo, {l0, l1, l2, la}))
            && (forall i, j :: 0 <= i < j < 9 ==> p[i].combo != p[j].combo)
            && (forall i :: 0 <= i < 6 ==> !Mentions(p[i].combo, la))
            && (forall i :: 6 <= i < 9 ==> Mentions(p[i].combo, la))
  {
    var p := Bets(l0, l1, l2, la);
    var combos := Permutations(l0, l1, l2) + [Combo(la, l0, l1), Combo(la, l1, l0), Combo(l0, la, l1)];
    assert forall i :: 0 <= i < 9 ==> p[i].combo == combos[i];
  }

  /** Nine bets, none bought, six main-line bets at odds 12 followed by three
      longshot bets at odds 45, 60 and 38. */
  lemma PredictedShape(boats: seq<Boat>)
    requires Predicted(boats).Ok?
    ensures var s := Ranking(boats);
            var p := Predicted(boats).preds;
            && |s| >= 4 && |p| == 9
            && (forall q :: q in p ==> !q.bought)
            && (forall i :: 0 <= i < 6 ==> p[i].kind == Mainline && p[i].odds == 12.0)
            && (forall i :: 6 <= i < 9 ==> p[i].kind == Longshot)
            && p[6].odds == 45.0 && p[7].odds == 60.0 && p[8].odds == 38.0
  {
    var s := Ranking(boats);
    BetsShape(s[0].boat.lane, s[1].boat.lane, s[2].boat.lane, Ana(s).boat.lane);
  }

  /** The lanes the bets are built from: the first three of the ranking and
      the longshot; on boats with different lanes they are four different
      lanes of the race. */
  lemma PredictedLanes(boats: seq<Boat>) returns (l0: int, l1: int, l2: int, la: int)
    requires DistinctLanes(boats)
    requires Predicted(boats).Ok?
    ensures var s := Ranking(boats);
            && |s| >= 4
            && l0 == s[0].boat.lane && l1 == s[1].boat.lane && l2 == s[2].boat.lane
            && la == Ana(s).boat.lane
            && Predicted(boats).preds == Bets(l0, l1, l2, la)
    ensures l0 != l1 && l0 != l2 && l1 != l2 && la != l0 && la != l1 && la != l2
    ensures HasLane(boats, l0) && HasLane(boats, l1) && HasLane(boats, l2) && HasLane(boats, la)
  {
    var s := Ranking(boats);
    OthersNonEmpty(s);
    RankingDistinct(boats);
    RankingFromBoats(boats);
    OthersOfDistinct(s);
    var a := Ana(s);
    LongshotChoice(boats);
    var m :| 3 <= m < |s| && s[m] == a;
    l0, l1, l2, la := s[0].boat.lane, s[1].boat.lane, s[2].boat.lane, a.boat.lane;
    assert LaneOf(s[0]) != LaneOf(s[m]) && LaneOf(s[1]) != LaneOf(s[m]) && LaneOf(s[2]) != LaneOf(s[m]);
    assert LaneOf(s[0]) != LaneOf(s[1]) && LaneOf(s[0]) != LaneOf(s[2]) && LaneOf(s[1]) != LaneOf(s[2]);
    assert HasLane(boats, l0) by { assert s[0] in s; }
    assert HasLane(boats, l1) by { assert s[1] in s; }
    assert HasLane(boats, l2) by { assert s[2] in s; }
    assert HasLane(boats, la) by { assert s[m] in s; }
  }

  /** On boats with different lanes the main line is exactly the orderings of
      the lanes of the ranking's first three boats: a combination is among the
      first six bets if and only if it names three different lanes, all of
      them favourites. */
  lemma PredictedMainline(boats: seq<Boat>)
    requires DistinctLanes(boats)
    requires Predicted(boats).Ok?
    ensures var s := Ranking(boats);
            var p := Predicted(boats).preds;
            && |s| >= 4 && |p| == 9
            && (forall c :: (exists i :: 0 <= i < 6 && p[i].combo == c) <==>
                  Distinct3(c) && LanesAmong(c, {s[0].boat.lane, s[1].boat.lane, s[2].boat.lane}))
  {
    var l0, l1, l2, la := PredictedLanes(boats);
    BetsMainline(l0, l1, l2, la);
  }

  /** On boats with different lanes every bet names three different lanes of
      the race, no two bets name the same ordering, and the longshot's lane
      appears in each of the last three bets and in none of the first six. */
  lemma PredictedCombos(boats: seq<Boat>)
    requires DistinctLanes(boats)
    requires Predicted(boats).Ok?
    ensures var s := Ranking(boats);
            var p := Predicted(boats).preds;
            var ana := Ana(s).boat.lane;
            && |s| >= 4 && |p| == 9
            && (forall i :: 0 <= i < 9 ==> ValidCombo(p[i].combo, boats))
            && (forall i, j :: 0 <= i < j < 9 ==> p[i].combo != p[j].combo)
            && (forall i :: 0 <= i < 6 ==> !Mentions(p[i].combo, ana))
            && (forall i :: 6 <= i < 9 ==> Mentions(p[i].combo, ana))
  {
    var l0, l1, l2, la := PredictedLanes(boats);
    BetsCombos(l0, l1, l2, la);
  }
}
