// The nucleus (top-p) mask over exact real arithmetic: the smallest set of most likely tokens whose
// mass exceeds top_p survives, at its own places and with its own logits.
module Nucleus {
  import opened Common

  // A masked logit is minus infinity.
  datatype Logit = Masked | Kept(value: real)

  // softmax(x)[i] is exp(x[i]) over the sum; any positive increasing function takes exp's place.
  ghost predicate ExpLike(exp: real -> real) {
    (forall x :: exp(x) > 0.0) && (forall x, y :: x <= y ==> exp(x) <= exp(y))
  }

  function Sum(xs: seq<real>): real {
    if xs == [] then 0.0 else Sum(xs[..|xs| - 1]) + xs[|xs| - 1]
  }

  function Weights(exp: real -> real, logits: seq<real>): (w: seq<real>)
    ensures |w| == |logits| && forall i :: 0 <= i < |logits| ==> w[i] == exp(logits[i])
  {
    seq(|logits|, i requires 0 <= i < |logits| => exp(logits[i]))
  }

  function Softmax(exp: real -> real, logits: seq<real>): (p: seq<real>)
    requires Sum(Weights(exp, logits)) != 0.0
    ensures |p| == |logits| && forall i :: 0 <= i < |logits| ==> p[i] == exp(logits[i]) / Sum(Weights(exp, logits))
  {
    seq(|logits|, i requires 0 <= i < |logits| => exp(logits[i]) / Sum(Weights(exp, logits)))
  }

  // `order` lists every index once, by descending logit.
  ghost predicate Sorts(logits: seq<real>, order: seq<nat>) {
    && |order| == |logits| && NoDup(order)
    && (forall i :: 0 <= i < |order| ==> order[i] < |logits|)
    && (forall i, j :: 0 <= i <= j < |order| ==> logits[order[i]] >= logits[order[j]])
  }

  function Gather(logits: seq<real>, order: seq<nat>): (s: seq<real>)
    requires |order| == |logits| && forall i :: 0 <= i < |order| ==> order[i] < |logits|
    ensures |s| == |logits| && forall i :: 0 <= i < |order| ==> s[i] == logits[order[i]]
  {
    seq(|logits|, i requires 0 <= i < |logits| => logits[order[i]])
  }

  // ---- The method ----

  // cumulative > top_p, position by position.
  method PastThreshold(probs: seq<real>, topP: real) returns (remove: array<bool>)
    ensures fresh(remove) && remove.Length == |probs|
    ensures forall i :: 0 <= i < |probs| ==> remove[i] == (Sum(probs[..i + 1]) > topP)
  {
    remove := new bool[|probs|];
    var total := 0.0;
    for i := 0 to |probs|
      invariant total == Sum(probs[..i])
      invariant forall j :: 0 <= j < i ==> remove[j] == (Sum(probs[..j + 1]) > topP)
    {
      assert probs[..i + 1][..i] == probs[..i];
      total := total + probs[i];
      remove[i] := total > topP;
    }
  }

  // shifted[1:] = remove[:-1], and the first position is never removed.
  method ShiftRight(remove: array<bool>) returns (shifted: array<bool>)
    requires remove.Length > 0
    ensures fresh(shifted) && shifted.Length == remove.Length
    ensures forall i :: 0 <= i < remove.Length ==> shifted[i] == (i > 0 && remove[i - 1])
  {
    shifted := new bool[remove.Length](i requires 0 <= i < remove.Length reads remove => remove[i]);
    for i := 1 to remove.Length
      invariant forall j :: 1 <= j < i ==> shifted[j] == remove[j - 1]
    {
      shifted[i] := remove[i - 1];
    }
    shifted[0] := false;
  }

  // scatter_ into a row of minus infinities.
  method Scatter(sorted: seq<real>, shifted: array<bool>, order: seq<nat>) returns (restored: array<Logit>)
    requires |sorted| == |order| == shifted.Length && NoDup(order)
    requires forall i :: 0 <= i < |order| ==> order[i] < |order|
    ensures fresh(restored) && restored.Length == |order|
    ensures forall i :: 0 <= i < |order| ==> restored[order[i]] == if shifted[i] then Masked else Kept(sorted[i])
  {
    restored := new Logit[|order|](_ => Masked);
    for i := 0 to |order|
      invariant forall j :: 0 <= j < i ==> restored[order[j]] == if shifted[j] then Masked else Kept(sorted[j])
    {
      restored[order[i]] := if shifted[i] then Masked else Kept(sorted[i]);
    }
  }

  // _nucleus_mask_row: mark what lies past the threshold, shift the mark one to the right so that
  // the token that crosses it stays, and scatter what is left back to its place.
  method NucleusMaskRow(exp: real -> real, logits: seq<real>, order: seq<nat>, topP: real)
    returns (restored: array<Logit>)
    requires logits != [] && ExpLike(exp) && Sorts(logits, order)
    ensures restored.Length == |logits| == |SortedProbs(exp, logits, order)|
    ensures forall i :: 0 <= i < |logits| ==>
      restored[order[i]] ==
        if Survives(SortedProbs(exp, logits, order), topP, i) then Kept(logits[order[i]]) else Masked
  {
    var probs := SortedProbs(exp, logits, order);
    var remove := PastThreshold(probs, topP);
    var shifted := ShiftRight(remove);
    restored := Scatter(Gather(logits, order), shifted, order);
  }

  // softmax of the sorted row.
  function SortedProbs(exp: real -> real, logits: seq<real>, order: seq<nat>): (p: seq<real>)
    requires logits != [] && ExpLike(exp) && Sorts(logits, order)
    ensures |p| == |logits|
  {
    WeightsPositive(exp, Gather(logits, order));
    Softmax(exp, Gather(logits, order))
  }

  // The i-th most likely token survives when those before it do not yet exceed the threshold.
  predicate Survives(probs: seq<real>, topP: real, i: nat)
    requires i < |probs|
  {
    i == 0 || Sum(probs[..i]) <= topP
  }

  // ---- Sums ----

  lemma ExpPositive(exp: real -> real, x: real)
    requires ExpLike(exp)
    ensures exp(x) > 0.0
  {
  }

  lemma {:induction false} WeightsPositive(exp: real -> real, logits: seq<real>)
    requires ExpLike(exp)
    ensures Sum(Weights(exp, logits)) >= 0.0 && (logits != [] ==> Sum(Weights(exp, logits)) > 0.0)
  {
    if logits != [] {
      var k := |logits| - 1;
      var w := Weights(exp, logits);
      WeightsPositive(exp, logits[..k]);
      assert w[..k] == Weights(exp, logits[..k]);
      ExpPositive(exp, logits[k]);
    }
  }

  lemma {:induction false} SumScales(xs: seq<real>, ys: seq<real>, c: real)
    requires c != 0.0 && |xs| == |ys| && forall i :: 0 <= i < |xs| ==> ys[i] == xs[i] / c
    ensures Sum(ys) == Sum(xs) / c
  {
    if xs != [] { SumScales(xs[..|xs| - 1], ys[..|ys| - 1], c); }
  }

  lemma {:induction false} SumMonotone(xs: seq<real>, i: nat, j: nat)
    requires i <= j <= |xs| && forall k :: 0 <= k < |xs| ==> xs[k] > 0.0
    ensures Sum(xs[..i]) <= Sum(xs[..j]) && (i < j ==> Sum(xs[..i]) < Sum(xs[..j]))
  {
    if i < j {
      SumMonotone(xs, i, j - 1);
      assert xs[..j][..j - 1] == xs[..j - 1];
    }
  }

  ghost predicate Distribution(probs: seq<real>) {
    && probs != [] && Sum(probs) == 1.0
    && (forall i :: 0 <= i < |probs| ==> probs[i] > 0.0)
    && (forall i, j :: 0 <= i <= j < |probs| ==> probs[i] >= probs[j])
  }

  lemma Quotient(x: real, y: real, c: real)
    requires c > 0.0
    ensures x > 0.0 ==> x / c > 0.0
    ensures x >= y ==> x / c >= y / c
  {
    if x >= y { assert (x - y) / c >= 0.0; }
  }

  // softmax of a descending row is a descending distribution.
  lemma SoftmaxIsDistribution(exp: real -> real, sorted: seq<real>)
    requires sorted != [] && ExpLike(exp) && forall i, j :: 0 <= i <= j < |sorted| ==> sorted[i] >= sorted[j]
    ensures Sum(Weights(exp, sorted)) > 0.0 && Distribution(Softmax(exp, sorted))
  {
    hide Sum;
    WeightsPositive(exp, sorted);
    var probs, w := Softmax(exp, sorted), Weights(exp, sorted);
    var total := Sum(w);
    SumIsOne(w, probs, total);
    forall i, j | 0 <= i <= j < |probs| ensures probs[i] >= probs[j] && probs[i] > 0.0 {
      SoftmaxEntries(exp, sorted[i], sorted[j], total);
    }
  }

  lemma SumIsOne(w: seq<real>, probs: seq<real>, total: real)
    requires total > 0.0 && total == Sum(w) && |w| == |probs| && forall i :: 0 <= i < |w| ==> probs[i] == w[i] / total
    ensures Sum(probs) == 1.0
  {
    SumScales(w, probs, total);
    Whole(total);
  }

  lemma Whole(c: real)
    requires c > 0.0
    ensures c / c == 1.0
  {
  }

  lemma SoftmaxEntries(exp: real -> real, x: real, y: real, total: real)
    requires ExpLike(exp) && x >= y && total > 0.0
    ensures exp(x) / total >= exp(y) / total && exp(x) / total > 0.0
  {
    ExpPositive(exp, x);
    Quotient(exp(x), exp(y), total);
  }

  lemma SortedProbsAre(exp: real -> real, logits: seq<real>, order: seq<nat>)
    requires logits != [] && ExpLike(exp) && Sorts(logits, order)
    ensures |SortedProbs(exp, logits, order)| == |logits| && Distribution(SortedProbs(exp, logits, order))
  {
    hide Sum, ExpLike, Distribution;
    SoftmaxIsDistribution(exp, Gather(logits, order));
  }

  // ---- Which tokens survive ----

  // How many: the least prefix of the sorted distribution whose mass exceeds the threshold.
  ghost predicate Crosses(probs: seq<real>, topP: real, k: nat) {
    && 1 <= k <= |probs| && Sum(probs[..k]) > topP
    && (k > 1 ==> Sum(probs[..k - 1]) <= topP)
  }

  lemma {:induction false} CrossingFrom(probs: seq<real>, topP: real, i: nat) returns (k: nat)
    requires Distribution(probs) && topP < 1.0 && i < |probs| && (i > 0 ==> Sum(probs[..i]) <= topP)
    ensures Crosses(probs, topP, k)
    decreases |probs| - i
  {
    if Sum(probs[..i + 1]) > topP {
      k := i + 1;
    } else {
      assert probs[..|probs|] == probs;
      k := CrossingFrom(probs, topP, i + 1);
    }
  }

  lemma SurvivorsAreFirst(probs: seq<real>, topP: real, k: nat, i: nat)
    requires Distribution(probs) && Crosses(probs, topP, k) && i < |probs|
    ensures Survives(probs, topP, i) <==> i < k
  {
    if i < k { SumMonotone(probs, i, k - 1); } else { SumMonotone(probs, k, i); }
  }

  // ---- No smaller set has that mass ----

  // The probability of a set of tokens, each given by its index in the row.
  ghost function Mass(p: seq<real>, tokens: set<nat>): real
    requires forall x :: x in tokens ==> x < |p|
  {
    if tokens == {} then 0.0 else var x :| x in tokens; p[x] + Mass(p, tokens - {x})
  }

  lemma {:induction false} MassAt(p: seq<real>, tokens: set<nat>, x: nat)
    requires x in tokens && forall y :: y in tokens ==> y < |p|
    ensures Mass(p, tokens) == p[x] + Mass(p, tokens - {x})
    decreases |tokens|
  {
    var first :| first in tokens && Mass(p, tokens) == p[first] + Mass(p, tokens - {first});
    if first != x {
      MassAt(p, tokens - {first}, x);
      MassAt(p, tokens - {x}, first);
      assert tokens - {first} - {x} == tokens - {x} - {first};
    }
  }

  ghost function Top(order: seq<nat>, k: nat): set<nat>
    requires k <= |order|
  {
    set i | 0 <= i < k :: order[i]
  }

  lemma {:induction false} TopSize(order: seq<nat>, k: nat)
    requires k <= |order|
    ensures |Top(order, k)| <= k
  {
    if k > 0 {
      TopSize(order, k - 1);
      assert Top(order, k) == Top(order, k - 1) + {order[k - 1]};
    }
  }

  ghost predicate RankedBy(p: seq<real>, order: seq<nat>, probs: seq<real>) {
    && |p| == |order| == |probs| && NoDup(order)
    && (forall i :: 0 <= i < |order| ==> order[i] < |p| && p[order[i]] == probs[i])
    && (forall x: nat :: x < |p| ==> x in order)
  }

  // A set of m tokens has a member ranked m-th or lower.
  lemma LowRanked(p: seq<real>, order: seq<nat>, probs: seq<real>, tokens: set<nat>) returns (r: nat)
    requires RankedBy(p, order, probs) && tokens != {} && forall x :: x in tokens ==> x < |p|
    ensures |tokens| - 1 <= r < |order| && order[r] in tokens
  {
    if |tokens| - 1 <= |order| {
      TopSize(order, |tokens| - 1);
      if tokens <= Top(order, |tokens| - 1) {
        Fewer(tokens, Top(order, |tokens| - 1));
        assert false;
      }
      var x :| x in tokens && x !in Top(order, |tokens| - 1);
      assert x in order;
      r :| 0 <= r < |order| && order[r] == x;
    } else {
      TopSize(order, |order|);
      forall x | x in tokens ensures x in Top(order, |order|) { assert x in order; }
      Fewer(tokens, Top(order, |order|));
      assert false;
    }
  }

  lemma Fewer(a: set<nat>, b: set<nat>)
    requires a <= b
    ensures |a| <= |b|
  {
    assert b == a + (b - a);
  }

  // Exchange: no m tokens outweigh the m most likely ones.
  lemma {:induction false} TopOutweighs(p: seq<real>, order: seq<nat>, probs: seq<real>, tokens: set<nat>)
    requires RankedBy(p, order, probs) && Distribution(probs) && forall x :: x in tokens ==> x < |p|
    ensures |tokens| <= |probs| && Mass(p, tokens) <= Sum(probs[..|tokens|])
    decreases |tokens|
  {
    if tokens != {} {
      var r := LowRanked(p, order, probs, tokens);
      var m := |tokens|;
      TopOutweighs(p, order, probs, tokens - {order[r]});
      MassAt(p, tokens, order[r]);
      assert probs[..m][..m - 1] == probs[..m - 1];
    }
  }

  lemma {:induction false} MassOfTop(p: seq<real>, order: seq<nat>, probs: seq<real>, k: nat)
    requires RankedBy(p, order, probs) && k <= |order|
    ensures forall x :: x in Top(order, k) ==> x < |p|
    ensures |Top(order, k)| == k && Mass(p, Top(order, k)) == Sum(probs[..k])
  {
    if k > 0 {
      MassOfTop(p, order, probs, k - 1);
      var last := order[k - 1];
      assert last !in Top(order, k - 1);
      assert Top(order, k) - {last} == Top(order, k - 1);
      assert Top(order, k) == Top(order, k - 1) + {last};
      MassAt(p, Top(order, k), last);
      assert probs[..k][..k - 1] == probs[..k - 1];
    }
  }

  // ---- The theorem ----

  ghost function SurvivingTokens(exp: real -> real, logits: seq<real>, order: seq<nat>, topP: real): set<nat>
    requires logits != [] && ExpLike(exp) && Sorts(logits, order)
  {
    SortedProbsAre(exp, logits, order);
    set i | 0 <= i < |logits| && Survives(SortedProbs(exp, logits, order), topP, i) :: order[i]
  }

  lemma RowRanked(exp: real -> real, logits: seq<real>, order: seq<nat>) returns (p: seq<real>)
    requires logits != [] && ExpLike(exp) && Sorts(logits, order)
    ensures Sum(Weights(exp, logits)) > 0.0 && p == Softmax(exp, logits)
    ensures RankedBy(p, order, SortedProbs(exp, logits, order))
  {
    WeightsPositive(exp, logits);
    p := Softmax(exp, logits);
    SumPermutes(Weights(exp, logits), order, Weights(exp, Gather(logits, order)));
    OrderCovers(order, |logits|);
  }

  function Below(n: nat): (all: set<nat>)
    ensures |all| == n && forall x: nat :: x in all <==> x < n
  {
    if n == 0 then {} else Below(n - 1) + {n - 1}
  }

  // A duplicate-free list of n numbers below n mentions every one of them.
  lemma OrderCovers(order: seq<nat>, n: nat)
    requires |order| == n && NoDup(order) && forall i :: 0 <= i < n ==> order[i] < n
    ensures forall x: nat :: x < n ==> x in order
  {
    var all, seen := Below(n), Top(order, n);
    DistinctTop(order, n);
    assert all == seen + (all - seen);
    forall x: nat | x < n ensures x in order { assert x in all && x in seen; }
  }

  lemma {:induction false} DistinctTop(order: seq<nat>, k: nat)
    requires k <= |order| && NoDup(order)
    ensures |Top(order, k)| == k
  {
    if k > 0 {
      DistinctTop(order, k - 1);
      assert Top(order, k) == Top(order, k - 1) + {order[k - 1]};
    }
  }

  // Summing in another order gives the same total.
  lemma SumPermutes(w: seq<real>, order: seq<nat>, sorted: seq<real>)
    requires |order| == |w| == |sorted| && NoDup(order)
    requires forall i :: 0 <= i < |order| ==> order[i] < |w| && sorted[i] == w[order[i]]
    ensures Sum(sorted) == Sum(w)
  {
    OrderCovers(order, |w|);
    MassOfTop(w, order, sorted, |w|);
    var identity := seq(|w|, (i: nat) => i);
    forall x: nat | x < |w| ensures x in identity { assert identity[x] == x; }
    MassOfTop(w, identity, w, |w|);
    assert Top(order, |w|) == Top(identity, |w|) by {
      forall x: nat | x < |w| ensures x in Top(order, |w|) && x in Top(identity, |w|) {
        assert x in order && identity[x] == x;
      }
    }
    assert sorted[..|w|] == sorted && w[..|w|] == w;
  }

  // The survivors are the first so many of the sorted row, cut where the mass crosses top_p.
  lemma SurvivorsAreTop(exp: real -> real, logits: seq<real>, order: seq<nat>, topP: real) returns (k: nat)
    requires logits != [] && ExpLike(exp) && Sorts(logits, order) && 0.0 < topP < 1.0
    ensures Crosses(SortedProbs(exp, logits, order), topP, k)
    ensures SurvivingTokens(exp, logits, order, topP) == Top(order, k)
  {
    hide Crosses, Survives;
    var probs := SortedProbs(exp, logits, order);
    SortedProbsAre(exp, logits, order);
    k := CrossingFrom(probs, topP, 0);
    forall i: nat | i < |logits| ensures Survives(probs, topP, i) <==> i < k { SurvivorsAreFirst(probs, topP, k, i); }
    CrossingInside(probs, topP, k);
  }

  lemma CrossingInside(probs: seq<real>, topP: real, k: nat)
    requires Crosses(probs, topP, k)
    ensures 1 <= k <= |probs|
  {
  }

  lemma MinimalMass(p: seq<real>, order: seq<nat>, probs: seq<real>, topP: real, k: nat, fewer: set<nat>)
    requires RankedBy(p, order, probs) && Distribution(probs) && Crosses(probs, topP, k) && topP > 0.0
    requires (forall x :: x in fewer ==> x < |p|) && |fewer| < k
    ensures forall x :: x in Top(order, k) ==> x < |p|
    ensures |Top(order, k)| == k && Mass(p, Top(order, k)) > topP && Mass(p, fewer) <= topP
  {
    MassOfTop(p, order, probs, k);
    TopOutweighs(p, order, probs, fewer);
    if k > 1 { SumMonotone(probs, |fewer|, k - 1); }
  }

  // Over 0 < top_p < 1 the survivors outweigh top_p and no fewer tokens do.
  lemma NucleusIsMinimal(exp: real -> real, logits: seq<real>, order: seq<nat>, topP: real, fewer: set<nat>)
    requires logits != [] && ExpLike(exp) && Sorts(logits, order) && 0.0 < topP < 1.0
    requires (forall x :: x in fewer ==> x < |logits|) && |fewer| < |SurvivingTokens(exp, logits, order, topP)|
    ensures Sum(Weights(exp, logits)) != 0.0
    ensures forall x :: x in SurvivingTokens(exp, logits, order, topP) ==> x < |logits|
    ensures Mass(Softmax(exp, logits), SurvivingTokens(exp, logits, order, topP)) > topP
    ensures Mass(Softmax(exp, logits), fewer) <= topP
  {
    hide SurvivingTokens, Crosses, Distribution, RankedBy, ExpLike, Sorts;
    var p := RowRanked(exp, logits, order);
    SortedProbsAre(exp, logits, order);
    var k := SurvivorsAreTop(exp, logits, order, topP);
    CrossingInside(SortedProbs(exp, logits, order), topP, k);
    TopSize(order, k);
    MinimalMass(p, order, SortedProbs(exp, logits, order), topP, k, fewer);
  }

  // The most likely token always survives.
  lemma MostLikelySurvives(exp: real -> real, logits: seq<real>, order: seq<nat>, topP: real)
    requires logits != [] && ExpLike(exp) && Sorts(logits, order)
    ensures order[0] in SurvivingTokens(exp, logits, order, topP)
    ensures forall x: nat :: x < |logits| ==> logits[x] <= logits[order[0]]
  {
    OrderCovers(order, |logits|);
    forall x: nat | x < |logits| ensures logits[x] <= logits[order[0]] {
      assert x in order;
      var i :| 0 <= i < |order| && order[i] == x;
    }
  }
}
