/** The state of `DataModel` (gigs/src/datamodel.py): the gig table that
    `read_gigs` builds, the chat index that `read_chats` attaches, and the
    feature split that `get_featured_gigs` computes once and then caches.

    Files are not read here: `read_gigs` receives the rows the CSV reader
    yields and `read_chats` the MESSAGES object of the chat file. */
module Dataset {
  import opened Entities
  import opened Features

  // ---------------------------------------------------------------- loading

  /** Apply `f` to every element in order, stopping at the first error. */
  function Traverse<A, B, E>(f: A -> Result<B, E>, xs: seq<A>): Result<seq<B>, E>
  {
    if xs == [] then Ok([])
    else
      match Traverse(f, xs[..|xs| - 1])
      case Err(e) => Err(e)
      case Ok(ys) =>
        match f(xs[|xs| - 1])
        case Err(e) => Err(e)
        case Ok(y) => Ok(ys + [y])
  }

  lemma {:induction false} TraverseLength<A, B, E>(f: A -> Result<B, E>, xs: seq<A>)
    requires Traverse(f, xs).Ok?
    ensures |Traverse(f, xs).value| == |xs|
  {
    if xs != [] {
      var init := xs[..|xs| - 1];
      assert Traverse(f, init).Ok? && f(xs[|xs| - 1]).Ok?;
      TraverseLength(f, init);
    }
  }

  lemma {:induction false} TraverseAt<A, B, E>(f: A -> Result<B, E>, xs: seq<A>, i: int)
    requires Traverse(f, xs).Ok? && 0 <= i < |xs|
    ensures i < |Traverse(f, xs).value| && f(xs[i]) == Ok(Traverse(f, xs).value[i])
  {
    var init := xs[..|xs| - 1];
    assert Traverse(f, init).Ok? && f(xs[|xs| - 1]).Ok?;
    TraverseLength(f, init);
    if i < |init| {
      TraverseAt(f, init, i);
      assert init[i] == xs[i];
    }
  }

  lemma {:induction false} TraverseFirstError<A, B, E>(f: A -> Result<B, E>, xs: seq<A>)
    requires Traverse(f, xs).Err?
    ensures exists i :: (0 <= i < |xs| && f(xs[i]) == Err(Traverse(f, xs).error) &&
      forall j :: 0 <= j < i ==> f(xs[j]).Ok?)
  {
    var init := xs[..|xs| - 1];
    assert forall j :: 0 <= j < |init| ==> xs[j] == init[j];
    match Traverse(f, init)
    case Err(e) =>
      TraverseFirstError(f, init);
      var i :| 0 <= i < |init| && f(init[i]) == Err(e) &&
        forall j :: 0 <= j < i ==> f(init[j]).Ok?;
      assert f(xs[i]) == Err(e);
    case Ok(ys) =>
      forall j | 0 <= j < |init| ensures f(xs[j]).Ok? {
        TraverseAt(f, init, j);
      }
      assert f(xs[|xs| - 1]).Err?;
  }

  lemma TraverseStep<A, B, E>(f: A -> Result<B, E>, xs: seq<A>, i: int, ys: seq<B>)
    requires 0 <= i < |xs| && Traverse(f, xs[..i]) == Ok(ys)
    ensures f(xs[i]).Err? ==> Traverse(f, xs[..i + 1]) == Err(f(xs[i]).error)
    ensures f(xs[i]).Ok? ==> Traverse(f, xs[..i + 1]) == Ok(ys + [f(xs[i]).value])
  {
    assert xs[..i + 1][..i] == xs[..i];
  }

  /** Once a prefix fails, the whole sequence fails the same way. */
  lemma {:induction false} TraverseStops<A, B, E>(f: A -> Result<B, E>, xs: seq<A>, n: int)
    requires 0 <= n <= |xs| && Traverse(f, xs[..n]).Err?
    ensures Traverse(f, xs) == Traverse(f, xs[..n])
    decreases |xs|
  {
    if n < |xs| {
      assert xs[..|xs| - 1][..n] == xs[..n];
      TraverseStops(f, xs[..|xs| - 1], n);
    } else {
      assert xs[..n] == xs;
    }
  }

  /** The `read_gigs` loop: normalise every row, stopping at the first row
      that fails. */
  function NormalizeAll(rows: seq<RawRow>): Result<seq<Gig>, LoadError>
  {
    Traverse(NormalizeGig, rows)
  }

  /** When every row normalises, the result lists the normalised rows in
      order. */
  lemma NormalizeAllOk(rows: seq<RawRow>)
    requires NormalizeAll(rows).Ok?
    ensures |NormalizeAll(rows).value| == |rows|
    ensures forall i :: 0 <= i < |rows| ==> NormalizeGig(rows[i]) == Ok(NormalizeAll(rows).value[i])
  {
    TraverseLength(NormalizeGig, rows);
    forall i | 0 <= i < |rows| ensures NormalizeGig(rows[i]) == Ok(NormalizeAll(rows).value[i]) {
      TraverseAt(NormalizeGig, rows, i);
    }
  }

  /** When some row fails, the error is that of the first failing row. */
  lemma NormalizeAllFirstError(rows: seq<RawRow>)
    requires NormalizeAll(rows).Err?
    ensures exists i :: (0 <= i < |rows| && NormalizeGig(rows[i]) == Err(NormalizeAll(rows).error) &&
      forall j :: 0 <= j < i ==> NormalizeGig(rows[j]).Ok?)
  {
    TraverseFirstError(NormalizeGig, rows);
  }

  /** `gigs[gig[ID]] = gig` for each gig in turn: the table keyed by
      identifier, where a later gig replaces an earlier one with the same
      identifier. */
  function GigIndex(gs: seq<Gig>): (m: map<string, Gig>)
    ensures m.Keys == set g | g in gs :: g.id
    ensures forall k :: k in m ==> m[k].id == k && m[k] in gs
  {
    if gs == [] then map[]
    else
      var last := gs[|gs| - 1];
      var m := GigIndex(gs[..|gs| - 1])[last.id := last];
      assert gs == gs[..|gs| - 1] + [last];
      m
  }

  /** The iteration order of that table: identifiers in order of first
      appearance (re-assigning a key keeps its place). */
  function KeyOrder(gs: seq<Gig>): (ks: seq<string>)
    ensures forall i, j :: 0 <= i < j < |ks| ==> ks[i] != ks[j]
    ensures forall k :: k in ks <==> k in (set g | g in gs :: g.id)
  {
    if gs == [] then []
    else
      var init := KeyOrder(gs[..|gs| - 1]);
      var last := gs[|gs| - 1];
      assert gs == gs[..|gs| - 1] + [last];
      if last.id in init then init else init + [last.id]
  }

  /** The gig a table built from `gs` holds for an identifier is the last
      gig with that identifier. */
  lemma {:induction false} LaterRowWins(gs: seq<Gig>, i: int)
    requires 0 <= i < |gs|
    requires forall j :: i < j < |gs| ==> gs[j].id != gs[i].id
    ensures gs[i].id in GigIndex(gs) && GigIndex(gs)[gs[i].id] == gs[i]
  {
    if i < |gs| - 1 {
      LaterRowWins(gs[..|gs| - 1], i);
    }
  }

  /** A later gig reorders nothing: the order of a longer list extends the
      order of its prefix. */
  lemma {:induction false} KeyOrderExtends(gs: seq<Gig>, n: int)
    requires 0 <= n <= |gs|
    ensures KeyOrder(gs[..n]) <= KeyOrder(gs)
    decreases |gs|
  {
    if n < |gs| {
      assert gs[..|gs| - 1][..n] == gs[..n];
      KeyOrderExtends(gs[..|gs| - 1], n);
    } else {
      assert gs[..n] == gs;
    }
  }

  /** `read_chats`: every gig whose identifier is a key of the chat index
      takes that key's chat map; the other gigs keep theirs. */
  function AttachChats(gigs: map<string, Gig>, index: map<string, map<string, Chat>>): (m: map<string, Gig>)
    ensures m.Keys == gigs.Keys
  {
    map k | k in gigs :: if k in index then gigs[k].(chats := index[k]) else gigs[k]
  }

  /** The part of the chat index that `save_relevant_chats` writes out. */
  function RelevantChats(index: map<string, map<string, Chat>>, gigs: map<string, Gig>): (m: map<string, map<string, Chat>>)
    ensures m.Keys == index.Keys * gigs.Keys
  {
    map k | k in index && k in gigs :: index[k]
  }

  /** Attaching chats keeps the key set and every field but the chats; a gig
      gets exactly the chat map its key has in the index, and a gig without
      one keeps the empty map it was loaded with. */
  lemma AttachChatsEffect(gigs: map<string, Gig>, index: map<string, map<string, Chat>>, k: string)
    requires k in gigs
    ensures var m := AttachChats(gigs, index);
      k in m && m[k].(chats := gigs[k].chats) == gigs[k] &&
      (k in index ==> m[k].chats == index[k]) &&
      (k !in index ==> m[k] == gigs[k])
  {
  }

  // ------------------------------------------------------ standardisation

  /** Why `get_featured_gigs` raises while standardising the prices. */
  datatype FeatureError =
    | TooFewGigs   // `stats.stdev` needs at least two values (StatisticsError)
    | ZeroSpread   // every price equal: the standard deviation is 0 (ZeroDivisionError)

  function Sum(ps: seq<int>): int
  {
    if ps == [] then 0 else Sum(ps[..|ps| - 1]) + ps[|ps| - 1]
  }

  /** `stats.mean`. */
  function Mean(ps: seq<int>): real
    requires |ps| > 0
  {
    Sum(ps) as real / |ps| as real
  }

  /** The sum of the squared distances from the mean, scaled by n * n so
      that it stays an integer: each term is (n * p - s) squared, where
      (n * p - s) / n is the distance of p from the mean s / n. */
  function Spread(ps: seq<int>, n: int, s: int): (q: int)
    ensures q >= 0
  {
    if ps == [] then 0
    else
      var d := n * ps[|ps| - 1] - s;
      Spread(ps[..|ps| - 1], n, s) + d * d
  }

  /** The square of `stats.stdev`: the sample variance, the sum of the
      squared distances from the mean over n - 1. */
  function SampleVariance(ps: seq<int>): real
    requires |ps| >= 2
  {
    var n := |ps|;
    Spread(ps, n, Sum(ps)) as real / (n * n * (n - 1)) as real
  }

  /** `__make_zero_mean_one_std`: each price becomes its distance from the
      mean over the standard deviation, kept as the exact pair (distance,
      variance). `stats.stdev` raises for fewer than two prices, and the
      division raises when all prices are equal (the deviation is 0). */
  function Standardize(ps: seq<int>): (r: Result<seq<Feature>, FeatureError>)
    ensures r.Err? <==> |ps| < 2 || AllEqual(ps)
    ensures r.Err? ==> (r.error == TooFewGigs <==> |ps| < 2)
    ensures r.Ok? ==> (SampleVariance(ps) > 0.0 && |r.value| == |ps| &&
      forall i :: 0 <= i < |ps| ==> r.value[i] == ZScore(ps[i] as real - Mean(ps), SampleVariance(ps)))
  {
    if |ps| < 2 then Err(TooFewGigs)
    else
      NoSpreadIffAllEqual(ps);
      if Spread(ps, |ps|, Sum(ps)) == 0 then Err(ZeroSpread)
      else
        VarianceIsPositive(ps);
        var m := Mean(ps);
        var v := SampleVariance(ps);
        Ok(seq(|ps|, i requires 0 <= i < |ps| => ZScore(ps[i] as real - m, v)))
  }

  /** Every price is the same. */
  predicate AllEqual(ps: seq<int>)
  {
    forall i, j :: 0 <= i < |ps| && 0 <= j < |ps| ==> ps[i] == ps[j]
  }

  /** Prices that are not all the same have a positive sample variance. */
  lemma VarianceIsPositive(ps: seq<int>)
    requires |ps| >= 2 && Spread(ps, |ps|, Sum(ps)) != 0
    ensures SampleVariance(ps) > 0.0
  {
    var n := |ps|;
    PositiveProduct(n, n);
    PositiveProduct(n * n, n - 1);
  }

  lemma PositiveProduct(a: int, b: int)
    requires a > 0 && b > 0
    ensures a * b > 0
  {
  }

  /** Sum of the distances from `m`. */
  function Deviations(ps: seq<int>, m: real): real
  {
    if ps == [] then 0.0 else Deviations(ps[..|ps| - 1], m) + (ps[|ps| - 1] as real - m)
  }

  lemma {:induction false} DeviationsFromSum(ps: seq<int>, m: real)
    ensures Deviations(ps, m) == Sum(ps) as real - |ps| as real * m
  {
    if ps != [] {
      DeviationsFromSum(ps[..|ps| - 1], m);
    }
  }

  /** The standardised prices have mean zero: their distances from the mean
      add up to nothing. */
  lemma ZeroMean(ps: seq<int>)
    requires |ps| > 0
    ensures Deviations(ps, Mean(ps)) == 0.0
  {
    DeviationsFromSum(ps, Mean(ps));
  }

  lemma {:induction false} NoSpreadMeansConstant(ps: seq<int>, n: int, s: int)
    requires Spread(ps, n, s) == 0
    ensures forall i :: 0 <= i < |ps| ==> n * ps[i] == s
  {
    if ps != [] {
      var d := n * ps[|ps| - 1] - s;
      assert d * d >= 0 && (d != 0 ==> d * d > 0);
      NoSpreadMeansConstant(ps[..|ps| - 1], n, s);
      assert forall i :: 0 <= i < |ps| - 1 ==> ps[i] == ps[..|ps| - 1][i];
    }
  }

  lemma {:induction false} ConstantHasNoSpread(ps: seq<int>, n: int, s: int)
    requires forall i :: 0 <= i < |ps| ==> n * ps[i] == s
    ensures Spread(ps, n, s) == 0
  {
    if ps != [] {
      ConstantHasNoSpread(ps[..|ps| - 1], n, s);
    }
  }

  lemma {:induction false} SumOfConstant(ps: seq<int>, c: int)
    requires forall i :: 0 <= i < |ps| ==> ps[i] == c
    ensures Sum(ps) == |ps| * c
  {
    if ps != [] {
      SumOfConstant(ps[..|ps| - 1], c);
    }
  }

  /** The squared distances from the mean vanish exactly when all prices
      are equal. */
  lemma NoSpreadIffAllEqual(ps: seq<int>)
    requires |ps| >= 2
    ensures Spread(ps, |ps|, Sum(ps)) == 0 <==> AllEqual(ps)
  {
    var n, s := |ps|, Sum(ps);
    if Spread(ps, n, s) == 0 {
      NoSpreadMeansConstant(ps, n, s);
      forall i, j | 0 <= i < n && 0 <= j < n ensures ps[i] == ps[j] {
        CancelFactor(n, ps[i], ps[j]);
      }
    }
    if AllEqual(ps) {
      SumOfConstant(ps, ps[0]);
      ConstantHasNoSpread(ps, n, s);
    }
  }

  lemma CancelFactor(n: int, a: int, b: int)
    requires n > 0 && n * a == n * b
    ensures a == b
  {
  }

  // ------------------------------------------------------ the feature split

  /** The statuses whose gigs are positive examples. */
  const PositiveStatuses: set<string> := {"STARTED", "MSHANDOFF", "HANDOFF", "DONE"}

  /** `1 if gig[STATUS] in pos_labels else -1`. */
  function LabelOf(status: string): (l: int)
    ensures l == 1 || l == -1
  {
    if status in PositiveStatuses then 1 else -1
  }

  /** The cached result: the POS and the NEG vectors. */
  datatype FeaturedGigs = FeaturedGigs(pos: seq<seq<Feature>>, neg: seq<seq<Feature>>)

  /** The vectors in table order. */
  ghost function VectorsOf(gigs: map<string, Gig>, order: seq<string>): (vs: seq<seq<Feature>>)
    requires forall k :: k in order ==> k in gigs
    ensures |vs| == |order|
  {
    seq(|order|, i requires 0 <= i < |order| => FeaturesFor(gigs[order[i]]))
  }

  /** The labels in table order. */
  function LabelsOf(gigs: map<string, Gig>, order: seq<string>): (ls: seq<int>)
    requires forall k :: k in order ==> k in gigs
    ensures |ls| == |order|
  {
    seq(|order|, i requires 0 <= i < |order| => LabelOf(gigs[order[i]].status))
  }

  /** The prices in table order. */
  function PricesOf(gigs: map<string, Gig>, order: seq<string>): (ps: seq<int>)
    requires forall k :: k in order ==> k in gigs
    ensures |ps| == |order|
  {
    seq(|order|, i requires 0 <= i < |order| => gigs[order[i]].price)
  }

  /** `f_gigs[i][0] = prices[i]` for every i. */
  function WithPrices(vs: seq<seq<Feature>>, zs: seq<Feature>): (ws: seq<seq<Feature>>)
    requires |zs| == |vs| && forall i :: 0 <= i < |vs| ==> |vs[i]| > 0
    ensures |ws| == |vs|
  {
    seq(|vs|, i requires 0 <= i < |vs| => vs[i][0 := zs[i]])
  }

  /** The vectors labelled 1, and the others, each in their original order. */
  function SplitByLabel(vs: seq<seq<Feature>>, ls: seq<int>): (r: FeaturedGigs)
    requires |ls| == |vs|
    ensures |r.pos| + |r.neg| == |vs|
  {
    if vs == [] then FeaturedGigs([], [])
    else
      var r := SplitByLabel(vs[..|vs| - 1], ls[..|ls| - 1]);
      if ls[|ls| - 1] == 1 then r.(pos := r.pos + [vs[|vs| - 1]])
      else r.(neg := r.neg + [vs[|vs| - 1]])
  }

  /** `get_featured_gigs` without a cache. */
  ghost function BuildFeatured(gigs: map<string, Gig>, order: seq<string>): Result<FeaturedGigs, FeatureError>
    requires forall k :: k in order ==> k in gigs
  {
    match Standardize(PricesOf(gigs, order))
    case Err(e) => Err(e)
    case Ok(zs) =>
      FeaturesNonEmpty(gigs, order);
      Ok(SplitByLabel(WithPrices(VectorsOf(gigs, order), zs), LabelsOf(gigs, order)))
  }

  /** Extraction fails exactly when there are fewer than two gigs or all
      their prices are equal. */
  lemma ExtractionFails(gigs: map<string, Gig>, order: seq<string>)
    requires forall k :: k in order ==> k in gigs
    ensures BuildFeatured(gigs, order).Err? <==> |order| < 2 || AllEqual(PricesOf(gigs, order))
  {
  }

  lemma FeaturesNonEmpty(gigs: map<string, Gig>, order: seq<string>)
    requires forall k :: k in order ==> k in gigs
    ensures forall i :: 0 <= i < |order| ==> |VectorsOf(gigs, order)[i]| == 20
  {
    forall i | 0 <= i < |order| ensures |VectorsOf(gigs, order)[i]| == 20 {
      LabelsMatchFeatures(gigs[order[i]]);
    }
  }

  /** How many labels are 1. */
  function CountPositive(ls: seq<int>): (n: nat)
    ensures n <= |ls|
  {
    if ls == [] then 0 else CountPositive(ls[..|ls| - 1]) + (if ls[|ls| - 1] == 1 then 1 else 0)
  }

  /** The split is a partition: POS holds as many vectors as there are
      labels 1, NEG the rest, and together they hold every vector exactly
      once. */
  lemma {:induction false} SplitPartitions(vs: seq<seq<Feature>>, ls: seq<int>)
    requires |ls| == |vs|
    ensures var r := SplitByLabel(vs, ls);
      |r.pos| == CountPositive(ls) && |r.pos| + |r.neg| == |vs| &&
      multiset(r.pos) + multiset(r.neg) == multiset(vs)
  {
    if vs != [] {
      var n := |vs| - 1;
      SplitPartitions(vs[..n], ls[..n]);
      assert vs == vs[..n] + [vs[n]];
      assert ls == ls[..n] + [ls[n]];
    }
  }

  /** Some position of `vs` holds `v` with a label that is 1 exactly when
      `positive` holds. */
  ghost predicate HeldWithLabel(vs: seq<seq<Feature>>, ls: seq<int>, v: seq<Feature>, positive: bool)
  {
    exists i :: 0 <= i < |vs| && i < |ls| && vs[i] == v && (ls[i] == 1) == positive
  }

  /** A vector is in POS only if some position labelled 1 holds it, and in
      NEG only if some position labelled otherwise holds it. */
  lemma {:induction false} SplitFollowsLabels(vs: seq<seq<Feature>>, ls: seq<int>)
    requires |ls| == |vs|
    ensures forall v :: v in SplitByLabel(vs, ls).pos ==> HeldWithLabel(vs, ls, v, true)
    ensures forall v :: v in SplitByLabel(vs, ls).neg ==> HeldWithLabel(vs, ls, v, false)
  {
    if vs != [] {
      var n := |vs| - 1;
      SplitFollowsLabels(vs[..n], ls[..n]);
      var r0 := SplitByLabel(vs[..n], ls[..n]);
      forall v | v in r0.pos + r0.neg
        ensures HeldWithLabel(vs[..n], ls[..n], v, v in r0.pos) ==> HeldWithLabel(vs, ls, v, v in r0.pos)
      {
        if HeldWithLabel(vs[..n], ls[..n], v, v in r0.pos) {
          var i :| 0 <= i < n && vs[..n][i] == v && (ls[..n][i] == 1) == (v in r0.pos);
          assert vs[i] == v && ls[i] == ls[..n][i];
        }
      }
      assert HeldWithLabel(vs, ls, vs[n], ls[n] == 1);
    }
  }

  /** The positions whose label is 1 (`positive`) or is not (otherwise), in
      increasing order. */
  function LabelledAt(ls: seq<int>, positive: bool): (p: seq<int>)
    ensures forall j :: 0 <= j < |p| ==> 0 <= p[j] < |ls|
    ensures forall j, k :: 0 <= j < k < |p| ==> p[j] < p[k]
    ensures forall i :: 0 <= i < |ls| ==> (i in p <==> (ls[i] == 1) == positive)
  {
    if ls == [] then []
    else
      var n := |ls| - 1;
      LabelledAt(ls[..n], positive) + (if (ls[n] == 1) == positive then [n] else [])
  }

  /** POS when `positive`, NEG otherwise. */
  function Side(r: FeaturedGigs, positive: bool): seq<seq<Feature>>
  {
    if positive then r.pos else r.neg
  }

  /** The split itself: POS lists the vectors at the positions labelled 1 and
      NEG those at the other positions, each in the original order. */
  lemma {:induction false} SplitByPositions(vs: seq<seq<Feature>>, ls: seq<int>, positive: bool)
    requires |ls| == |vs|
    ensures var s, p := Side(SplitByLabel(vs, ls), positive), LabelledAt(ls, positive);
      |s| == |p| && forall j :: 0 <= j < |p| ==> s[j] == vs[p[j]]
  {
    if vs != [] {
      var n := |vs| - 1;
      SplitByPositions(vs[..n], ls[..n], positive);
      var s0, p0 := Side(SplitByLabel(vs[..n], ls[..n]), positive), LabelledAt(ls[..n], positive);
      var s, p := Side(SplitByLabel(vs, ls), positive), LabelledAt(ls, positive);
      if (ls[n] == 1) == positive {
        assert s == s0 + [vs[n]] && p == p0 + [n];
      } else {
        assert s == s0 && p == p0;
      }
      forall j | 0 <= j < |p| ensures s[j] == vs[p[j]] {
        if j < |p0| {
          assert s[j] == s0[j] && p[j] == p0[j];
          assert vs[..n][p0[j]] == vs[p0[j]];
        }
      }
    }
  }

  /** Conversely, every vector lands on the side its label names. */
  lemma EveryPositionLands(vs: seq<seq<Feature>>, ls: seq<int>)
    requires |ls| == |vs|
    ensures forall i :: 0 <= i < |vs| && ls[i] == 1 ==> vs[i] in SplitByLabel(vs, ls).pos
    ensures forall i :: 0 <= i < |vs| && ls[i] != 1 ==> vs[i] in SplitByLabel(vs, ls).neg
  {
    SplitByPositions(vs, ls, true);
    SplitByPositions(vs, ls, false);
    var r, p, q := SplitByLabel(vs, ls), LabelledAt(ls, true), LabelledAt(ls, false);
    forall i | 0 <= i < |vs| ensures vs[i] in (if ls[i] == 1 then r.pos else r.neg) {
      var t := if ls[i] == 1 then p else q;
      assert i in t;
      var j :| 0 <= j < |t| && t[j] == i;
    }
  }

  /** Overwriting the prices changes position 0 of each vector and nothing
      else. */
  lemma OnlyPriceChanges(vs: seq<seq<Feature>>, zs: seq<Feature>, i: int, j: int)
    requires |zs| == |vs| && forall k :: 0 <= k < |vs| ==> |vs[k]| > 0
    requires 0 <= i < |vs| && 0 <= j < |vs[i]|
    ensures |WithPrices(vs, zs)[i]| == |vs[i]|
    ensures WithPrices(vs, zs)[i][j] == if j == 0 then zs[i] else vs[i][j]
  {
  }

  // ---------------------------------------------------------- the class

  /** Every cached row has one entry per label. */
  predicate FullRows(f: FeaturedGigs)
  {
    (forall i :: 0 <= i < |f.pos| ==> |f.pos[i]| == 20) &&
    (forall i :: 0 <= i < |f.neg| ==> |f.neg[i]| == 20)
  }

  /** `order` lists each key of `gigs` once, and every gig is stored under
      its own identifier. */
  ghost predicate TableInvariant(gigs: map<string, Gig>, order: seq<string>)
  {
    (forall i, j :: 0 <= i < j < |order| ==> order[i] != order[j]) &&
    (forall k :: k in order <==> k in gigs) &&
    (forall k :: k in gigs ==> gigs[k].id == k)
  }

  class DataModel {
    /** `self.gigs`, with `order` its iteration order. */
    var gigs: map<string, Gig>
    var order: seq<string>
    /** `self.chats`: the MESSAGES object of the chat file. */
    var chats: map<string, map<string, Chat>>
    /** `self.featured_gigs`, once computed. */
    var featured: Option<FeaturedGigs>

    ghost predicate Valid()
      reads this
    {
      TableInvariant(gigs, order) && (featured.Some? ==> FullRows(featured.value))
    }

    /** A model with no gigs, no chats and nothing cached. */
    constructor ()
      ensures Valid()
      ensures gigs == map[] && order == [] && chats == map[] && featured == None
    {
      gigs, order, chats, featured := map[], [], map[], None;
    }

    /** `read_gigs`: normalise each row, give it an empty chat map and store
        it under its identifier. A row that fails stops the read and leaves
        the table as it was. The cached split is not cleared. */
    method ReadGigs(rows: seq<RawRow>) returns (err: Option<LoadError>)
      requires Valid()
      modifies this
      ensures Valid()
      ensures chats == old(chats) && featured == old(featured)
      ensures NormalizeAll(rows).Err? ==>
        err == Some(NormalizeAll(rows).error) && gigs == old(gigs) && order == old(order)
      ensures NormalizeAll(rows).Ok? ==>
        err == None && gigs == GigIndex(NormalizeAll(rows).value) && order == KeyOrder(NormalizeAll(rows).value)
    {
      var table, keys;
      err, table, keys := IndexRows(rows);
      if err.Some? {
        return;
      }
      IndexIsTable(NormalizeAll(rows).value);
      gigs, order := table, keys;
    }

    /** `read_chats`: remember the chat index and give every gig whose key
        is in it that key's chat map. Keys without a gig are ignored; no gig
        is added or removed. The cached split is not cleared. */
    method ReadChats(index: map<string, map<string, Chat>>)
      requires Valid()
      modifies this
      ensures Valid()
      ensures chats == index && gigs == AttachChats(old(gigs), index)
      ensures order == old(order) && featured == old(featured)
    {
      var table := gigs;
      var remaining := index.Keys;
      ghost var seen: set<string> := {};
      while remaining != {}
        invariant seen + remaining == index.Keys && seen !! remaining
        invariant table.Keys == gigs.Keys
        invariant forall k :: k in table ==>
          table[k] == if k in seen then gigs[k].(chats := index[k]) else gigs[k]
        invariant unchanged(this)
        decreases remaining
      {
        var key :| key in remaining;
        if key in table {
          table := table[key := table[key].(chats := index[key])];
        }
        remaining := remaining - {key};
        seen := seen + {key};
      }
      assert table == AttachChats(gigs, index);
      gigs, chats := table, index;
    }

    /** `read_data`: `read_gigs` then, when it succeeded, `read_chats`. */
    method ReadData(rows: seq<RawRow>, index: map<string, map<string, Chat>>) returns (err: Option<LoadError>)
      requires Valid()
      modifies this
      ensures Valid()
      ensures featured == old(featured)
      ensures NormalizeAll(rows).Err? ==>
        err == Some(NormalizeAll(rows).error) && gigs == old(gigs) && order == old(order) && chats == old(chats)
      ensures NormalizeAll(rows).Ok? ==>
        err == None && chats == index &&
        gigs == AttachChats(GigIndex(NormalizeAll(rows).value), index) &&
        order == KeyOrder(NormalizeAll(rows).value)
    {
      err := ReadGigs(rows);
      if err == None {
        ReadChats(index);
      }
    }

    /** `get_featured_gigs`: the cached split when there is one; otherwise
        the vectors of all gigs in table order with their prices
        standardised, split by status, and cached. When standardising fails
        nothing is cached. */
    method GetFeaturedGigs() returns (r: Result<FeaturedGigs, FeatureError>)
      requires Valid()
      modifies this
      ensures Valid()
      ensures gigs == old(gigs) && order == old(order) && chats == old(chats)
      ensures old(featured).Some? ==> r == Ok(old(featured).value) && featured == old(featured)
      ensures old(featured).None? ==> (r == BuildFeatured(gigs, order) &&
        featured == if r.Ok? then Some(r.value) else None)
      ensures r.Ok? <==> featured.Some?
      ensures r.Ok? ==> featured == Some(r.value)
    {
      if featured.Some? {
        return Ok(featured.value);
      }
      var table, keys := gigs, order;
      r := ComputeFeatured(table, keys);
      if r.Ok? {
        featured := Some(r.value);
      }
    }

    /** `save_relevant_chats`: remember the chat index and return the part
        of it whose keys are gig identifiers. */
    method SaveRelevantChats(index: map<string, map<string, Chat>>) returns (rel: map<string, map<string, Chat>>)
      requires Valid()
      modifies this
      ensures Valid()
      ensures chats == index && rel == RelevantChats(index, gigs)
      ensures gigs == old(gigs) && order == old(order) && featured == old(featured)
    {
      chats := index;
      rel := map[];
      var remaining := index.Keys;
      while remaining != {}
        invariant remaining <= index.Keys
        invariant rel == map k | k in index.Keys - remaining && k in gigs :: index[k]
        decreases remaining
      {
        var key :| key in remaining;
        if key in gigs {
          rel := rel[key := index[key]];
        }
        remaining := remaining - {key};
      }
    }
  }

  /** The body of `get_featured_gigs` below the cache test. The prices
      read back from position 0 of each vector are the gigs' prices. */
  method ComputeFeatured(gigs: map<string, Gig>, order: seq<string>) returns (r: Result<FeaturedGigs, FeatureError>)
    requires forall k :: k in order ==> k in gigs
    ensures r == BuildFeatured(gigs, order)
    ensures r.Ok? ==> FullRows(r.value)
  {
    var vs, labels := VectorsAndLabels(gigs, order);
    var z := Standardize(PricesOf(gigs, order));
    if z.Err? {
      return Err(z.error);
    }
    FeaturesNonEmpty(gigs, order);
    var fs := OverwritePrices(vs, z.value);
    var split := SplitRows(fs, labels);
    RowsStayFull(fs, labels);
    r := Ok(split);
  }

  /** The vector and the label of each gig, in table order. */
  method VectorsAndLabels(gigs: map<string, Gig>, order: seq<string>) returns (vs: seq<seq<Feature>>, ls: seq<int>)
    requires forall k :: k in order ==> k in gigs
    ensures vs == VectorsOf(gigs, order) && ls == LabelsOf(gigs, order)
  {
    vs, ls := [], [];
    for i := 0 to |order|
      invariant vs == VectorsOf(gigs, order[..i]) && ls == LabelsOf(gigs, order[..i])
    {
      var gig := gigs[order[i]];
      var v := FeaturesForGig(gig);
      TableOrderStep(gigs, order, i);
      vs := vs + [v];
      ls := ls + [if gig.status in PositiveStatuses then 1 else -1];
    }
    assert order[..|order|] == order;
  }

  lemma TableOrderStep(gigs: map<string, Gig>, order: seq<string>, i: int)
    requires forall k :: k in order ==> k in gigs
    requires 0 <= i < |order|
    ensures VectorsOf(gigs, order[..i + 1]) == VectorsOf(gigs, order[..i]) + [FeaturesFor(gigs[order[i]])]
    ensures LabelsOf(gigs, order[..i + 1]) == LabelsOf(gigs, order[..i]) + [LabelOf(gigs[order[i]].status)]
  {
  }

  /** The loop `f_gigs[i][0] = prices[i]`. */
  method OverwritePrices(vs: seq<seq<Feature>>, zs: seq<Feature>) returns (fs: seq<seq<Feature>>)
    requires |zs| == |vs| && forall i :: 0 <= i < |vs| ==> |vs[i]| > 0
    ensures fs == WithPrices(vs, zs)
  {
    fs := vs;
    for i := 0 to |zs|
      invariant |fs| == |vs|
      invariant forall j :: 0 <= j < |fs| ==> fs[j] == if j < i then vs[j][0 := zs[j]] else vs[j]
    {
      fs := fs[i := fs[i][0 := zs[i]]];
    }
  }

  /** The loop appending each vector to POS or NEG by its label. */
  method SplitRows(vs: seq<seq<Feature>>, ls: seq<int>) returns (r: FeaturedGigs)
    requires |ls| == |vs|
    ensures r == SplitByLabel(vs, ls)
  {
    var pos: seq<seq<Feature>> := [];
    var neg: seq<seq<Feature>> := [];
    for i := 0 to |ls|
      invariant SplitByLabel(vs[..i], ls[..i]) == FeaturedGigs(pos, neg)
    {
      assert vs[..i + 1][..i] == vs[..i] && ls[..i + 1][..i] == ls[..i];
      if ls[i] == 1 {
        pos := pos + [vs[i]];
      } else {
        neg := neg + [vs[i]];
      }
    }
    assert vs[..|vs|] == vs && ls[..|ls|] == ls;
    r := FeaturedGigs(pos, neg);
  }

  lemma RowsStayFull(vs: seq<seq<Feature>>, ls: seq<int>)
    requires |ls| == |vs| && forall i :: 0 <= i < |vs| ==> |vs[i]| == 20
    ensures FullRows(SplitByLabel(vs, ls))
  {
    SplitFollowsLabels(vs, ls);
    var r := SplitByLabel(vs, ls);
    forall row | row in r.pos + r.neg ensures |row| == 20 {
      var i :| 0 <= i < |vs| && i < |ls| && vs[i] == row && (ls[i] == 1) == (row in r.pos);
    }
    assert forall i :: 0 <= i < |r.pos| ==> r.pos[i] in r.pos + r.neg;
    assert forall i :: 0 <= i < |r.neg| ==> r.neg[i] in r.pos + r.neg;
  }

  /** The loop of `read_gigs`: normalise the rows in turn, storing each
      under its identifier, and stop at the first row that fails. */
  method IndexRows(rows: seq<RawRow>) returns (err: Option<LoadError>, table: map<string, Gig>, keys: seq<string>)
    ensures NormalizeAll(rows).Err? ==> err == Some(NormalizeAll(rows).error)
    ensures NormalizeAll(rows).Ok? ==>
      err == None && table == GigIndex(NormalizeAll(rows).value) && keys == KeyOrder(NormalizeAll(rows).value)
  {
    table, keys := map[], [];
    ghost var gs: seq<Gig> := [];
    for i := 0 to |rows|
      invariant NormalizeAll(rows[..i]) == Ok(gs)
      invariant table == GigIndex(gs) && keys == KeyOrder(gs)
    {
      var r := NormalizeGig(rows[i]);
      TraverseStep(NormalizeGig, rows, i, gs);
      if r.Err? {
        TraverseStops(NormalizeGig, rows, i + 1);
        return Some(r.error), table, keys;
      }
      var g := r.value;
      IndexStep(gs, g);
      if g.id !in table {
        keys := keys + [g.id];
      }
      table := table[g.id := g];
      gs := gs + [g];
    }
    assert rows[..|rows|] == rows;
    err := None;
  }

  /** A table built from gigs keeps the table invariant. */
  lemma IndexIsTable(gs: seq<Gig>)
    ensures TableInvariant(GigIndex(gs), KeyOrder(gs))
  {
  }

  lemma IndexStep(gs: seq<Gig>, g: Gig)
    ensures GigIndex(gs + [g]) == GigIndex(gs)[g.id := g]
    ensures KeyOrder(gs + [g]) == if g.id in KeyOrder(gs) then KeyOrder(gs) else KeyOrder(gs) + [g.id]
    ensures g.id in KeyOrder(gs) <==> g.id in GigIndex(gs)
  {
    assert (gs + [g])[..|gs|] == gs;
  }
}
