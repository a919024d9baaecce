/** Greedy clustering of structural price levels: levels are taken in price order
    and each joins the first cluster whose running mean is within 0.25% of it. */
module Clusters {
  import opened RealAlgebra
  import opened RealMath
  import opened Statistics

  const TOLERANCE := 0.0025

  datatype Level = Level(price: real, tf: string)

  /** A cluster under construction. */
  datatype Cluster = Cluster(avgPrice: real, items: seq<Level>, tfs: set<string>)

  datatype Summary = Summary(price: real, touches: nat, tfs: set<string>)

  function Prices(items: seq<Level>): (p: seq<real>)
    ensures |p| == |items|
  {
    seq(|items|, i requires 0 <= i < |items| => items[i].price)
  }

  ghost predicate SortedByPrice(levels: seq<Level>) {
    forall i, j :: 0 <= i < j < |levels| ==> levels[i].price <= levels[j].price
  }

  ghost predicate PositivePrices(levels: seq<Level>) {
    forall i :: 0 <= i < |levels| ==> levels[i].price > 0.0
  }

  // ------------------------------------------------------------- sorting

  function InsertByPrice(levels: seq<Level>, x: Level): (r: seq<Level>)
    ensures |r| == |levels| + 1
  {
    if levels == [] || levels[|levels| - 1].price <= x.price then levels + [x]
    else InsertByPrice(levels[..|levels| - 1], x) + [levels[|levels| - 1]]
  }

  /** The library sort. */
  function SortByPrice(levels: seq<Level>): (r: seq<Level>)
    ensures |r| == |levels|
  {
    if levels == [] then [] else InsertByPrice(SortByPrice(levels[..|levels| - 1]), levels[|levels| - 1])
  }

  lemma {:induction false} InsertKeepsOrder(levels: seq<Level>, x: Level)
    requires SortedByPrice(levels)
    ensures SortedByPrice(InsertByPrice(levels, x))
  {
    if levels != [] && levels[|levels| - 1].price > x.price {
      var init, last := levels[..|levels| - 1], levels[|levels| - 1];
      InsertKeepsOrder(init, x);
      assert levels == init + [last];
      InsertWithin(init, x, last.price);
    }
  }

  lemma {:induction false} InsertKeepsItems(levels: seq<Level>, x: Level)
    ensures multiset(InsertByPrice(levels, x)) == multiset(levels) + multiset{x}
  {
    if levels != [] && levels[|levels| - 1].price > x.price {
      InsertKeepsItems(levels[..|levels| - 1], x);
      assert levels == levels[..|levels| - 1] + [levels[|levels| - 1]];
    }
  }

  lemma {:induction false} InsertWithin(levels: seq<Level>, x: Level, hi: real)
    requires AllBelow(levels, hi) && x.price <= hi
    ensures AllBelow(InsertByPrice(levels, x), hi)
  {
    if levels != [] {
      InsertWithin(levels[..|levels| - 1], x, hi);
    }
  }

  lemma {:induction false} SortSorts(levels: seq<Level>)
    ensures SortedByPrice(SortByPrice(levels))
    ensures multiset(SortByPrice(levels)) == multiset(levels)
  {
    if levels != [] {
      var init, last := levels[..|levels| - 1], levels[|levels| - 1];
      SortSorts(init);
      InsertKeepsOrder(SortByPrice(init), last);
      InsertKeepsItems(SortByPrice(init), last);
      assert levels == init + [last];
    }
  }

  /** The levels at one price, in order. */
  function AtPrice(levels: seq<Level>, price: real): seq<Level> {
    if levels == [] then []
    else
      var last := levels[|levels| - 1];
      AtPrice(levels[..|levels| - 1], price) + if last.price == price then [last] else []
  }

  lemma {:induction false} InsertIsStable(levels: seq<Level>, x: Level, price: real)
    ensures AtPrice(InsertByPrice(levels, x), price)
      == AtPrice(levels, price) + if x.price == price then [x] else []
  {
    var n := |levels| - 1;
    var r := InsertByPrice(levels, x);
    if levels == [] || levels[n].price <= x.price {
      assert r[..|r| - 1] == levels;
    } else {
      InsertIsStable(levels[..n], x, price);
      assert r[..|r| - 1] == InsertByPrice(levels[..n], x);
    }
  }

  /** Levels at the same price keep their order. */
  lemma {:induction false} SortIsStable(levels: seq<Level>, price: real)
    ensures AtPrice(SortByPrice(levels), price) == AtPrice(levels, price)
  {
    if levels != [] {
      var init, last := levels[..|levels| - 1], levels[|levels| - 1];
      SortIsStable(init, price);
      InsertIsStable(SortByPrice(init), last, price);
    }
  }

  // ----------------------------------------------------- what is promised

  /** The items of all clusters, in order. */
  function Joined(clusters: seq<Cluster>): seq<Level> {
    if clusters == [] then []
    else Joined(clusters[..|clusters| - 1]) + clusters[|clusters| - 1].items
  }

  function Tfs(items: seq<Level>): set<string> {
    set i | 0 <= i < |items| :: items[i].tf
  }

  /** 0.25% above `price`. */
  function Raised(price: real): real {
    1.0025 * price
  }

  /** A cluster's price is the mean of its items and it carries their
      timeframes. */
  ghost predicate Sound(c: Cluster) {
    && c.items != []
    && c.avgPrice == Mean(Prices(c.items))
    && c.tfs == Tfs(c.items)
  }

  /** No item exceeds the cluster's price by 0.25% or more. */
  ghost predicate Tight(c: Cluster) {
    forall i :: 0 <= i < |c.items| ==> c.items[i].price < Raised(c.avgPrice)
  }

  /** Only the last price can be negative, and every item of a later cluster is at
      least 0.25% above an earlier price. */
  ghost predicate Separated(clusters: seq<Cluster>) {
    && (forall a :: 0 <= a < |clusters| - 1 ==> clusters[a].avgPrice >= 0.0)
    && (forall a, b, i :: 0 <= a < b < |clusters| && 0 <= i < |clusters[b].items| ==>
          Raised(clusters[a].avgPrice) <= clusters[b].items[i].price)
  }

  ghost predicate Clustered(clusters: seq<Cluster>, taken: seq<Level>) {
    && Joined(clusters) == taken
    && (forall c :: 0 <= c < |clusters| ==> Sound(clusters[c]))
    && Separated(clusters)
  }

  /** Items of a sorted list never exceed the next one. */
  ghost predicate AllBelow(items: seq<Level>, price: real) {
    forall i :: 0 <= i < |items| ==> items[i].price <= price
  }

  /** The code's test; a zero mean makes the quotient infinite or NaN, never less
      than the tolerance. */
  predicate Near(price: real, avg: real) {
    avg != 0.0 && Abs(price - avg) / avg < TOLERANCE
  }

  lemma QuotientBelow(a: real, b: real, k: real)
    requires b > 0.0
    ensures a / b < k <==> a < b * k
  {
    var q := a / b;
    QuotientTimes(a, b);
    if q < k { ScaleLt(b, q, k); }
    if q >= k { ScaleLe(b, k, q); }
  }

  lemma NearMeans(price: real, avg: real)
    requires 0.0 < avg <= price
    ensures Near(price, avg) <==> price < Raised(avg)
  {
    QuotientBelow(price - avg, avg, TOLERANCE);
    assert Raised(avg) == avg + avg * TOLERANCE;
  }

  /** A negative mean is near everything: the quotient is not positive. */
  lemma NegativeIsNear(price: real, avg: real)
    requires avg < 0.0
    ensures Near(price, avg)
  {
    var q := Abs(price - avg) / avg;
    QuotientTimes(Abs(price - avg), avg);
    if q > 0.0 { ScaleLt(q, avg, 0.0); }
  }

  lemma {:induction false} SumWithin(xs: seq<real>, hi: real)
    requires forall i :: 0 <= i < |xs| ==> xs[i] <= hi
    ensures Sum(xs) <= |xs| as real * hi
  {
    if xs != [] {
      SumWithin(xs[..|xs| - 1], hi);
      ExpandStep((|xs| - 1) as real, 0.0, 0.0, 0.0, hi);
    }
  }

  /** A mean does not exceed a bound on all its items. */
  lemma MeanBelow(xs: seq<real>, hi: real)
    requires xs != [] && forall i :: 0 <= i < |xs| ==> xs[i] <= hi
    ensures Mean(xs) <= hi
  {
    SumWithin(xs, hi);
    var n, m := |xs| as real, Mean(xs);
    QuotientTimes(Sum(xs), n);
    if m > hi { ScaleLt(n, hi, m); }
  }

  /** Adding an item no smaller than the mean does not lower the mean. */
  lemma MeanGrows(xs: seq<real>, x: real)
    requires xs != [] && Mean(xs) <= x
    ensures Mean(xs) <= Mean(xs + [x])
  {
    assert (xs + [x])[..|xs|] == xs;
    MeanStep(|xs| as real, Sum(xs), x, Mean(xs), Mean(xs + [x]));
  }

  lemma MeanStep(n: real, s: real, x: real, m: real, m': real)
    requires n > 0.0 && m == s / n && m' == (s + x) / (n + 1.0) && m <= x
    ensures m <= m'
  {
    QuotientTimes(s, n);
    QuotientTimes(s + x, n + 1.0);
    assert (n + 1.0) * m == n * m + m;
    if m' < m { ScaleLt(n + 1.0, m', m); }
  }

  // ------------------------------------------------------- one more level

  /** Clusters before the last are out of reach of any further level. */
  lemma OnlyLastCanMatch(clusters: seq<Cluster>, taken: seq<Level>, lvl: Level, c: nat)
    requires Clustered(clusters, taken) && AllBelow(taken, lvl.price)
    requires c < |clusters|
    ensures clusters[c].avgPrice <= lvl.price
    ensures c < |clusters| - 1 ==> !Near(lvl.price, clusters[c].avgPrice)
  {
    ItemsAreTaken(clusters, c);
    MeanBelow(Prices(clusters[c].items), lvl.price);
    if c < |clusters| - 1 {
      ItemsAreTaken(clusters, |clusters| - 1);
      assert Sound(clusters[|clusters| - 1]);
      var first := clusters[|clusters| - 1].items[0];
      assert first.price <= lvl.price;
      if clusters[c].avgPrice > 0.0 { NearMeans(lvl.price, clusters[c].avgPrice); }
    }
  }

  lemma {:induction false} ItemsAreTaken(clusters: seq<Cluster>, c: nat)
    requires c < |clusters|
    ensures forall i :: 0 <= i < |clusters[c].items| ==> clusters[c].items[i] in Joined(clusters)
  {
    var n := |clusters| - 1;
    if c < n {
      ItemsAreTaken(clusters[..n], c);
    }
  }

  function Grown(c: Cluster, lvl: Level): Cluster {
    var items := c.items + [lvl];
    Cluster(Mean(Prices(items)), items, c.tfs + {lvl.tf})
  }

  lemma GrownIsSound(c: Cluster, lvl: Level)
    requires Sound(c)
    ensures Sound(Grown(c, lvl))
  {
    TfsGrow(c.items, lvl);
  }

  lemma TfsGrow(items: seq<Level>, lvl: Level)
    ensures Tfs(items + [lvl]) == Tfs(items) + {lvl.tf}
  {
    var all := items + [lvl];
    assert forall i :: 0 <= i < |items| ==> all[i].tf == items[i].tf;
    assert all[|items|].tf == lvl.tf;
    forall s | s in Tfs(items) + {lvl.tf} ensures s in Tfs(all) {
      if s in Tfs(items) {
        var i :| 0 <= i < |items| && items[i].tf == s;
        assert all[i].tf == s;
      }
    }
  }

  lemma JoinLast(clusters: seq<Cluster>, taken: seq<Level>, lvl: Level)
    requires Clustered(clusters, taken) && AllBelow(taken, lvl.price)
    requires clusters != [] && Near(lvl.price, clusters[|clusters| - 1].avgPrice)
    ensures var n := |clusters| - 1;
      Clustered(clusters[n := Grown(clusters[n], lvl)], taken + [lvl])
  {
    hide Near, Sound, Mean, Grown;
    var n := |clusters| - 1;
    var last := clusters[n];
    GrownIsSound(last, lvl);
    var g := Grown(last, lvl);
    var clusters' := clusters[n := g];
    assert clusters'[..n] == clusters[..n];
    GrownItems(last, lvl);
    assert Joined(clusters') == taken + [lvl];
    assert forall a :: 0 <= a < n ==> clusters'[a] == clusters[a];
    forall a, b, i | 0 <= a < b < |clusters'| && 0 <= i < |clusters'[b].items|
      ensures Raised(clusters'[a].avgPrice) <= clusters'[b].items[i].price
    {
      if b == n && i == |last.items| {
        SoundNotEmpty(last);
        assert Raised(clusters[a].avgPrice) <= last.items[0].price;
        ItemsAreTaken(clusters, n);
        assert last.items[0].price <= lvl.price;
      }
    }
  }

  lemma GrownItems(c: Cluster, lvl: Level)
    ensures Grown(c, lvl).items == c.items + [lvl]
  {
  }

  lemma SoundNotEmpty(c: Cluster)
    requires Sound(c)
    ensures c.items != []
  {
  }

  function Single(lvl: Level): Cluster {
    Cluster(lvl.price, [lvl], {lvl.tf})
  }

  lemma SingleIsSound(lvl: Level)
    ensures Sound(Single(lvl))
  {
    assert Prices([lvl]) == [lvl.price];
    assert [lvl.price][..0] == [];
    assert Sum([lvl.price]) == lvl.price;
    assert Tfs([lvl]) == {lvl.tf} by { assert [lvl][0].tf == lvl.tf; }
  }

  lemma FarAbove(price: real, avg: real)
    requires avg <= price && !Near(price, avg)
    ensures 0.0 <= avg && Raised(avg) <= price
  {
    if avg < 0.0 { NegativeIsNear(price, avg); }
    if avg > 0.0 { NearMeans(price, avg); }
  }

  lemma StartNew(clusters: seq<Cluster>, taken: seq<Level>, lvl: Level)
    requires Clustered(clusters, taken) && AllBelow(taken, lvl.price)
    requires clusters != [] ==> !Near(lvl.price, clusters[|clusters| - 1].avgPrice)
    ensures Clustered(clusters + [Single(lvl)], taken + [lvl])
  {
    hide Sound, Near;
    var clusters' := clusters + [Single(lvl)];
    assert clusters'[..|clusters|] == clusters;
    SingleIsSound(lvl);
    forall a | 0 <= a < |clusters|
      ensures 0.0 <= clusters[a].avgPrice && Raised(clusters[a].avgPrice) <= lvl.price
    {
      OnlyLastCanMatch(clusters, taken, lvl, a);
      FarAbove(lvl.price, clusters[a].avgPrice);
    }
  }

  // ------------------------------------------------------- the algorithm

  /** The simple form: a level joins the last cluster or starts a new one. */
  function Take(clusters: seq<Cluster>, lvl: Level): seq<Cluster> {
    var n := |clusters| - 1;
    if n >= 0 && Near(lvl.price, clusters[n].avgPrice)
    then clusters[n := Grown(clusters[n], lvl)]
    else clusters + [Single(lvl)]
  }

  function Greedy(sorted: seq<Level>): seq<Cluster> {
    if sorted == [] then []
    else Take(Greedy(sorted[..|sorted| - 1]), sorted[|sorted| - 1])
  }

  /** Whatever the prices, the greedy clusters are contiguous runs of the sorted
      levels; each carries the mean and the timeframes of its run, and every item
      is at least 0.25% above all earlier clusters' prices. */
  lemma {:induction false} GreedyIsClustered(sorted: seq<Level>)
    requires SortedByPrice(sorted)
    ensures Clustered(Greedy(sorted), sorted)
  {
    hide Clustered, Near, Grown, Single;
    if sorted == [] {
      NothingClustered();
    } else {
      var n := |sorted| - 1;
      var taken, lvl := sorted[..n], sorted[n];
      GreedyIsClustered(taken);
      assert sorted == taken + [lvl];
      var clusters := Greedy(taken);
      if clusters != [] && Near(lvl.price, clusters[|clusters| - 1].avgPrice) {
        JoinLast(clusters, taken, lvl);
      } else {
        StartNew(clusters, taken, lvl);
      }
    }
  }

  lemma NothingClustered()
    ensures Clustered([], [])
  {
  }

  lemma GrownIsTight(c: Cluster, lvl: Level)
    requires Sound(c) && Tight(c) && c.items[0].price > 0.0
    requires c.avgPrice <= lvl.price && Near(lvl.price, c.avgPrice)
    ensures Tight(Grown(c, lvl))
  {
    assert Prices(Grown(c, lvl).items) == Prices(c.items) + [lvl.price];
    MeanGrows(Prices(c.items), lvl.price);
    NearMeans(lvl.price, c.avgPrice);
  }

  lemma {:induction false} PositiveIsTight(sorted: seq<Level>)
    requires SortedByPrice(sorted) && PositivePrices(sorted)
    ensures forall c :: 0 <= c < |Greedy(sorted)| ==> Tight(Greedy(sorted)[c])
  {
    hide Near, Tight, Sound, Grown, Joined;
    if sorted != [] {
      var n := |sorted| - 1;
      var taken, lvl := sorted[..n], sorted[n];
      PositiveIsTight(taken);
      GreedyIsClustered(taken);
      var clusters := Greedy(taken);
      var last := |clusters| - 1;
      if last >= 0 && Near(lvl.price, clusters[last].avgPrice) {
        OnlyLastCanMatch(clusters, taken, lvl, last);
        ItemsAreTaken(clusters, last);
        SoundNotEmpty(clusters[last]);
        assert clusters[last].items[0] in taken;
        GrownIsTight(clusters[last], lvl);
      } else {
        SingleIsTight(lvl);
      }
    }
  }

  lemma SingleIsTight(lvl: Level)
    ensures Tight(Single(lvl)) <==> lvl.price > 0.0
  {
    assert Single(lvl).items[0] == lvl;
  }

  /** A mean that is not positive, pulled up by a larger item, stays at most half
      of that item or below 0. */
  lemma LooseStaysLoose(c: Cluster, lvl: Level)
    requires Sound(c) && c.avgPrice < 0.0 && AllBelow(c.items, lvl.price)
    ensures !Tight(Grown(c, lvl))
  {
    var g := Grown(c, lvl);
    assert Prices(g.items) == Prices(c.items) + [lvl.price];
    assert Prices(g.items)[..|c.items|] == Prices(c.items);
    MeanBelow(Prices(g.items), lvl.price);
    HalfAtMost(|c.items| as real, Sum(Prices(c.items)), lvl.price, c.avgPrice, g.avgPrice);
    assert g.items[|c.items|] == lvl;
  }

  lemma HalfAtMost(n: real, s: real, x: real, m: real, m': real)
    requires n >= 1.0 && m == s / n && m < 0.0 && m' == (s + x) / (n + 1.0) && m' <= x
    ensures Raised(m') <= x
  {
    QuotientTimes(s, n);
    QuotientTimes(s + x, n + 1.0);
    ScaleLt(n, m, 0.0);
    if m' > 0.0 {
      ScaleLe(m', 2.0, n + 1.0);
      assert m' * (n + 1.0) == (n + 1.0) * m';
    }
  }

  /** With a lowest price of 0 or less the first cluster is never tight. */
  lemma {:induction false} FirstIsLoose(sorted: seq<Level>)
    requires SortedByPrice(sorted) && sorted != [] && sorted[0].price <= 0.0
    ensures Greedy(sorted) != [] && !Tight(Greedy(sorted)[0])
  {
    hide Near, Sound, Grown, Joined;
    var n := |sorted| - 1;
    var taken, lvl := sorted[..n], sorted[n];
    if n == 0 {
      assert Greedy(taken) == [];
      SingleIsTight(lvl);
    } else {
      FirstIsLoose(taken);
      GreedyIsClustered(taken);
      var clusters := Greedy(taken);
      if |clusters| == 1 && Near(lvl.price, clusters[0].avgPrice) {
        ItemsAreTaken(clusters, 0);
        OnlyLastCanMatch(clusters, taken, lvl, 0);
        NearLooseIsNegative(clusters[0], lvl);
        LooseStaysLoose(clusters[0], lvl);
      }
    }
  }

  lemma NearLooseIsNegative(c: Cluster, lvl: Level)
    requires !Tight(c) && AllBelow(c.items, lvl.price) && c.avgPrice <= lvl.price && Near(lvl.price, c.avgPrice)
    ensures c.avgPrice < 0.0
  {
    if c.avgPrice > 0.0 { NearMeans(lvl.price, c.avgPrice); }
  }

  /** No item is 0.25% above its own cluster's price exactly when all prices are
      positive: a negative mean would accept every level. */
  lemma TightIffPositive(sorted: seq<Level>)
    requires SortedByPrice(sorted)
    ensures (forall c :: 0 <= c < |Greedy(sorted)| ==> Tight(Greedy(sorted)[c])) <==> PositivePrices(sorted)
  {
    hide Tight, Greedy;
    if PositivePrices(sorted) {
      PositiveIsTight(sorted);
    } else {
      assert sorted[0].price <= 0.0;
      FirstIsLoose(sorted);
    }
  }

  method GrowCluster(c: Cluster, lvl: Level) returns (g: Cluster)
    ensures g == Grown(c, lvl)
  {
    var items := c.items + [lvl];
    var sum := 0.0;
    for i := 0 to |items|
      invariant sum == Sum(Prices(items)[..i])
    {
      assert Prices(items)[..i + 1][..i] == Prices(items)[..i];
      sum := sum + items[i].price;
    }
    assert Prices(items)[..|items|] == Prices(items);
    g := Cluster(sum / |items| as real, items, c.tfs + {lvl.tf});
  }

  /** The code scans all clusters for each level, yet does what the simple form
      does: no cluster but the last is ever joined. */
  method ScanClusters(allLevels: seq<Level>) returns (clusters: seq<Cluster>)
    ensures clusters == Greedy(SortByPrice(allLevels))
    ensures Clustered(clusters, SortByPrice(allLevels))
  {
    hide Clustered, Near, Grown, Single, SortByPrice;
    var sorted := SortByPrice(allLevels);
    SortSorts(allLevels);
    clusters := [];
    for k := 0 to |sorted|
      invariant clusters == Greedy(sorted[..k])
    {
      var lvl := sorted[k];
      ghost var taken := sorted[..k];
      assert sorted[..k + 1][..k] == taken;
      GreedyIsClustered(taken);
      var placed := false;
      var c := 0;
      while c < |clusters|
        invariant 0 <= c <= |clusters| && !placed
        invariant clusters == Greedy(taken)
        invariant c == |clusters| > 0 ==> !Near(lvl.price, clusters[c - 1].avgPrice)
      {
        OnlyLastCanMatch(clusters, taken, lvl, c);
        if Near(lvl.price, clusters[c].avgPrice) {
          var grown := GrowCluster(clusters[c], lvl);
          clusters := clusters[c := grown];
          placed := true;
          break;
        }
        c := c + 1;
      }
      if !placed {
        clusters := clusters + [Single(lvl)];
      }
    }
    assert sorted[..|sorted|] == sorted;
    GreedyIsClustered(sorted);
  }

  // ------------------------------------------------------------- summary

  function Touches(clusters: seq<Cluster>): nat {
    if clusters == [] then 0
    else Touches(clusters[..|clusters| - 1]) + |clusters[|clusters| - 1].items|
  }

  lemma {:induction false} TouchesCountItems(clusters: seq<Cluster>)
    ensures Touches(clusters) == |Joined(clusters)|
  {
    if clusters != [] { TouchesCountItems(clusters[..|clusters| - 1]); }
  }

  /** The published prices rise by a factor of at least 1.0025 from one cluster to
      the next, and touches add up to the number of levels given. */
  lemma PublishedPricesSpread(clusters: seq<Cluster>, levels: seq<Level>)
    requires clusters == Greedy(SortByPrice(levels))
    ensures Touches(clusters) == |levels|
    ensures forall a, b :: 0 <= a < b < |clusters| ==>
      Raised(clusters[a].avgPrice) <= clusters[b].avgPrice
  {
    hide Greedy, SortByPrice, Sound, Separated, Raised, Touches, Joined;
    GreedyOfLevels(levels);
    TouchesCountItems(clusters);
    forall a, b | 0 <= a < b < |clusters|
      ensures Raised(clusters[a].avgPrice) <= clusters[b].avgPrice
    {
      PairSpread(clusters, SortByPrice(levels), a, b);
    }
  }

  lemma GreedyOfLevels(levels: seq<Level>)
    ensures Clustered(Greedy(SortByPrice(levels)), SortByPrice(levels))
  {
    SortSorts(levels);
    GreedyIsClustered(SortByPrice(levels));
  }

  lemma PairSpread(clusters: seq<Cluster>, taken: seq<Level>, a: nat, b: nat)
    requires Clustered(clusters, taken) && a < b < |clusters|
    ensures Raised(clusters[a].avgPrice) <= clusters[b].avgPrice
  {
    hide Sound, Joined, Raised;
    PriceAbove(clusters[b], Raised(clusters[a].avgPrice));
  }

  lemma {:induction false} SumAbove(xs: seq<real>, lo: real)
    requires forall i :: 0 <= i < |xs| ==> lo <= xs[i]
    ensures |xs| as real * lo <= Sum(xs)
  {
    if xs != [] {
      SumAbove(xs[..|xs| - 1], lo);
      ExpandStep((|xs| - 1) as real, 0.0, 0.0, 0.0, lo);
    }
  }

  lemma MeanAbove(xs: seq<real>, lo: real)
    requires xs != [] && forall i :: 0 <= i < |xs| ==> lo <= xs[i]
    ensures lo <= Mean(xs)
  {
    SumAbove(xs, lo);
    var n, m := |xs| as real, Mean(xs);
    QuotientTimes(Sum(xs), n);
    if m < lo { ScaleLt(n, m, lo); }
  }

  lemma PriceAbove(c: Cluster, lo: real)
    requires Sound(c) && forall i :: 0 <= i < |c.items| ==> lo <= c.items[i].price
    ensures lo <= c.avgPrice
  {
    hide Mean;
    MeanAbove(Prices(c.items), lo);
  }

  method ClusterLevels(allLevels: seq<Level>) returns (out: seq<Summary>)
    ensures var clusters := Greedy(SortByPrice(allLevels));
      && |out| == |clusters|
      && forall c :: 0 <= c < |out| ==>
        out[c] == Summary(clusters[c].avgPrice, |clusters[c].items|, clusters[c].tfs)
  {
    var clusters := ScanClusters(allLevels);
    out := seq(|clusters|, i requires 0 <= i < |clusters| =>
      Summary(clusters[i].avgPrice, |clusters[i].items|, clusters[i].tfs));
  }
}
