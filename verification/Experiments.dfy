/** The sample assembly of `Experimenter` (gigs/src/experimenter.py): the
    positive rows then the negative rows, labelled 1 and -1, handed to the
    cross-validation, once with whole rows and once per feature column.

    The classifiers that `get_classifier_list` and `get_svm` construct come
    in as parameters; printing, `means` and `float_precise_str` are not part
    of this model, so the methods return the raw score lists. */
module Experiments {
  import opened Entities
  import opened Features
  import opened Dataset
  import opened CrossValidation

  /** `labels` as both methods build it: 1 for each positive row, then -1
      for each negative one. */
  function LabelsFor(f: FeaturedGigs): (ls: seq<int>)
    ensures |ls| == |f.pos| + |f.neg|
    ensures forall i :: 0 <= i < |ls| ==> ls[i] == if i < |f.pos| then 1 else -1
  {
    seq(|f.pos|, _ => 1) + seq(|f.neg|, _ => -1)
  }

  /** The loops of `classify_gigs`: every positive row then every negative
      row, each with its label. */
  method AssembleSamples(f: FeaturedGigs) returns (samples: seq<seq<Feature>>, labels: seq<int>)
    ensures samples == f.pos + f.neg
    ensures labels == LabelsFor(f)
  {
    samples, labels := [], [];
    for i := 0 to |f.pos|
      invariant samples == f.pos[..i] && labels == seq(i, _ => 1)
    {
      samples, labels := samples + [f.pos[i]], labels + [1];
    }
    for i := 0 to |f.neg|
      invariant samples == f.pos + f.neg[..i]
      invariant labels == seq(|f.pos|, _ => 1) + seq(i, _ => -1)
    {
      samples, labels := samples + [f.neg[i]], labels + [-1];
    }
    assert f.pos[..|f.pos|] == f.pos && f.neg[..|f.neg|] == f.neg;
  }

  /** The label loops of `evaluate_feature_values`. */
  method AssembleLabels(f: FeaturedGigs) returns (labels: seq<int>)
    ensures labels == LabelsFor(f)
  {
    labels := [];
    for i := 0 to |f.pos|
      invariant labels == seq(i, _ => 1)
    {
      labels := labels + [1];
    }
    for i := 0 to |f.neg|
      invariant labels == seq(|f.pos|, _ => 1) + seq(i, _ => -1)
    {
      labels := labels + [-1];
    }
  }

  /** Every row has at least `w` columns. */
  predicate Wide(rows: seq<seq<Feature>>, w: nat)
  {
    forall k :: 0 <= k < |rows| ==> w <= |rows[k]|
  }

  /** `[[row[i]] for row in rows]`. */
  function Column(rows: seq<seq<Feature>>, i: nat): (c: seq<seq<Feature>>)
    requires Wide(rows, i + 1)
    ensures |c| == |rows|
  {
    if rows == [] then [] else Column(rows[..|rows| - 1], i) + [[rows[|rows| - 1][i]]]
  }

  /** Row `k` of the projection is the one-element row holding column `i`
      of row `k`. */
  lemma {:induction false} ColumnAt(rows: seq<seq<Feature>>, i: nat)
    requires Wide(rows, i + 1)
    ensures forall k :: 0 <= k < |rows| ==> Column(rows, i)[k] == [rows[k][i]]
  {
    if rows != [] {
      var init := rows[..|rows| - 1];
      ColumnAt(init, i);
      assert forall k :: 0 <= k < |init| ==> init[k] == rows[k];
    }
  }

  /** Projecting the positive rows and then the negative rows is projecting
      the samples, so the projected samples line up with `labels`. */
  lemma {:induction false} ColumnOfConcat(a: seq<seq<Feature>>, b: seq<seq<Feature>>, i: nat)
    requires Wide(a, i + 1) && Wide(b, i + 1)
    ensures Wide(a + b, i + 1)
    ensures Column(a + b, i) == Column(a, i) + Column(b, i)
  {
    if b != [] {
      var bi := b[..|b| - 1];
      assert (a + b)[..|a + b| - 1] == a + bi;
      ColumnOfConcat(a, bi, i);
    } else {
      assert a + b == a;
    }
  }

  /** Every row of both groups has at least `w` columns. */
  predicate FeaturedWide(f: FeaturedGigs, w: nat)
  {
    Wide(f.pos, w) && Wide(f.neg, w)
  }

  /** sklearn's KFold yields indices below the sample count. */
  ghost predicate SplitsFit(kfold: nat -> seq<Fold>)
  {
    forall n: nat :: FoldsFit(kfold(n), n, n)
  }

  /** The split for the featured rows' sample count fits them. */
  predicate SplitFits(kfold: nat -> seq<Fold>, f: FeaturedGigs)
  {
    var n := |f.pos| + |f.neg|;
    FoldsFit(kfold(n), n, n)
  }

  lemma SplitFor(kfold: nat -> seq<Fold>, f: FeaturedGigs)
    requires SplitsFit(kfold)
    ensures SplitFits(kfold, f)
  {
    var n := |f.pos| + |f.neg|;
    assert FoldsFit(kfold(n), n, n);
  }

  /** The F1 list that cross-validating column `i` alone gives. */
  function ColumnF1<P>(sk: Sklearn<P, seq<Feature>>, svm: Named<P, seq<Feature>>, f: FeaturedGigs,
                       i: nat, kfold: nat -> seq<Fold>): seq<real>
    requires FeaturedWide(f, i + 1) && SplitFits(kfold, f)
  {
    ColumnOfConcat(f.pos, f.neg, i);
    var x := Column(f.pos + f.neg, i);
    var r := CrossValReturned(sk, [svm], x, LabelsFor(f), kfold(|x|));
    r.single.f1
  }

  /** The names at the positions of `names`. */
  function Listed(names: seq<string>): set<string>
  {
    set j | 0 <= j < |names| :: names[j]
  }

  lemma ListedStep(names: seq<string>, n: int)
    requires 0 <= n < |names|
    ensures Listed(names[..n + 1]) == Listed(names[..n]) + {names[n]}
  {
    var a, b := names[..n + 1], names[..n];
    assert forall j :: 0 <= j < n ==> a[j] == b[j];
    assert a[n] == names[n];
    forall v | v in Listed(a) ensures v in Listed(b) + {names[n]} {
      var j :| 0 <= j < |a| && a[j] == v;
      if j < n {
        assert b[j] == v;
      }
    }
  }

  /** `table[names[j]] = vals[j]` for each `j` in turn. */
  function Overwrite<V>(names: seq<string>, vals: seq<V>): map<string, V>
    requires |names| == |vals|
  {
    if names == [] then map[]
    else
      var n := |names| - 1;
      Overwrite(names[..n], vals[..n])[names[n] := vals[n]]
  }

  /** One entry per distinct name, and a name listed more than once keeps
      the value of its last position: any earlier one is overwritten. */
  lemma {:induction false} OverwriteLastWins<V>(names: seq<string>, vals: seq<V>)
    requires |names| == |vals|
    ensures Overwrite(names, vals).Keys == Listed(names)
    ensures forall j :: 0 <= j < |names| && (forall k :: j < k < |names| ==> names[k] != names[j]) ==>
      Overwrite(names, vals)[names[j]] == vals[j]
  {
    if names != [] {
      var n := |names| - 1;
      OverwriteLastWins(names[..n], vals[..n]);
      ListedStep(names, n);
      assert names[..n + 1] == names;
      assert forall j :: 0 <= j < n ==> names[..n][j] == names[j] && vals[..n][j] == vals[j];
    }
  }

  /** The F1 lists of the first `n` columns, in column order. */
  function ColumnF1s<P>(sk: Sklearn<P, seq<Feature>>, svm: Named<P, seq<Feature>>, f: FeaturedGigs,
                        n: nat, kfold: nat -> seq<Fold>): (cols: seq<seq<real>>)
    requires FeaturedWide(f, n) && SplitFits(kfold, f)
  {
    seq(n, j requires 0 <= j < n => ColumnF1(sk, svm, f, j, kfold))
  }

  lemma ColumnF1sStep<P>(sk: Sklearn<P, seq<Feature>>, svm: Named<P, seq<Feature>>, f: FeaturedGigs,
                         n: nat, kfold: nat -> seq<Fold>)
    requires FeaturedWide(f, n + 1) && SplitFits(kfold, f)
    ensures ColumnF1s(sk, svm, f, n + 1, kfold)[..n] == ColumnF1s(sk, svm, f, n, kfold)
    ensures ColumnF1s(sk, svm, f, n + 1, kfold)[n] == ColumnF1(sk, svm, f, n, kfold)
  {
  }

  /** `feature_values` after the columns named by `names`: each name in
      turn is set to its column's F1 list. */
  function FeatureTable<P>(sk: Sklearn<P, seq<Feature>>, svm: Named<P, seq<Feature>>, f: FeaturedGigs,
                           names: seq<string>, kfold: nat -> seq<Fold>): map<string, seq<real>>
    requires FeaturedWide(f, |names|) && SplitFits(kfold, f)
  {
    Overwrite(names, ColumnF1s(sk, svm, f, |names|, kfold))
  }

  /** One entry per distinct feature label, and a label listed more than
      once (PDF) keeps the F1 list of its last column. */
  lemma FeatureTableLastWins<P>(sk: Sklearn<P, seq<Feature>>, svm: Named<P, seq<Feature>>,
                                f: FeaturedGigs, names: seq<string>, kfold: nat -> seq<Fold>)
    requires FeaturedWide(f, |names|) && SplitFits(kfold, f)
    ensures FeatureTable(sk, svm, f, names, kfold).Keys == Listed(names)
    ensures forall j :: 0 <= j < |names| && (forall k :: j < k < |names| ==> names[k] != names[j]) ==>
      FeatureTable(sk, svm, f, names, kfold)[names[j]] == ColumnF1(sk, svm, f, j, kfold)
  {
    OverwriteLastWins(names, ColumnF1s(sk, svm, f, |names|, kfold));
  }

  /** The F1 list of a column has one value per fold, the `k`-th being the
      classifier's F1 score on fold `k` of the column samples. */
  lemma ColumnF1PerFold<P>(sk: Sklearn<P, seq<Feature>>, svm: Named<P, seq<Feature>>, f: FeaturedGigs,
                           i: nat, kfold: nat -> seq<Fold>)
    requires FeaturedWide(f, i + 1) && SplitFits(kfold, f)
    ensures Wide(f.pos + f.neg, i + 1)
    ensures var x := Column(f.pos + f.neg, i);
      var folds := kfold(|x|);
      |ColumnF1(sk, svm, f, i, kfold)| == |folds| &&
      forall k :: 0 <= k < |folds| ==>
        ColumnF1(sk, svm, f, i, kfold)[k] == Evaluate(sk, svm.classifier.params, x, LabelsFor(f), folds[k]).f1
  {
    ColumnOfConcat(f.pos, f.neg, i);
    var x := Column(f.pos + f.neg, i);
    SingleClassifierScores(sk, svm, x, LabelsFor(f), kfold(|x|));
  }

  /** `feature_values` after the first `n` passes of the column loop. */
  function TableUpTo<P>(sk: Sklearn<P, seq<Feature>>, svm: Named<P, seq<Feature>>, f: FeaturedGigs,
                        names: seq<string>, n: nat, kfold: nat -> seq<Fold>): map<string, seq<real>>
    requires n <= |names| && FeaturedWide(f, |names|) && SplitFits(kfold, f)
  {
    assert FeaturedWide(f, n);
    Overwrite(names[..n], ColumnF1s(sk, svm, f, n, kfold))
  }

  /** The column loop of `evaluate_feature_values`. */
  method FillFeatureValues<P>(sk: Sklearn<P, seq<Feature>>, svm: Named<P, seq<Feature>>, f: FeaturedGigs,
                              names: seq<string>, labels: seq<int>, kfold: nat -> seq<Fold>)
      returns (values: map<string, seq<real>>)
    requires FeaturedWide(f, |names|) && SplitFits(kfold, f) && labels == LabelsFor(f)
    ensures values == FeatureTable(sk, svm, f, names, kfold)
  {
    values := map[];
    for i := 0 to |names|
      invariant values == TableUpTo(sk, svm, f, names, i, kfold)
    {
      values := AddColumn(sk, svm, f, names, labels, i, kfold, values);
    }
    assert names[..|names|] == names;
  }

  /** One pass of the column loop: `feature_values[names[i]]` becomes the
      F1 list of column `i`. */
  method AddColumn<P>(sk: Sklearn<P, seq<Feature>>, svm: Named<P, seq<Feature>>, f: FeaturedGigs,
                      names: seq<string>, labels: seq<int>, i: nat, kfold: nat -> seq<Fold>,
                      values: map<string, seq<real>>)
      returns (next: map<string, seq<real>>)
    requires i < |names| && FeaturedWide(f, |names|) && SplitFits(kfold, f) && labels == LabelsFor(f)
    requires values == TableUpTo(sk, svm, f, names, i, kfold)
    ensures next == TableUpTo(sk, svm, f, names, i + 1, kfold)
  {
    FeatureTableStep(sk, svm, f, names, i, kfold);
    var f1 := ColumnScores(sk, svm, f, i, labels, kfold);
    next := values[names[i] := f1];
  }

  /** Storing column `i`'s F1 list under `names[i]` extends the table by
      one column. */
  lemma FeatureTableStep<P>(sk: Sklearn<P, seq<Feature>>, svm: Named<P, seq<Feature>>, f: FeaturedGigs,
                            names: seq<string>, i: nat, kfold: nat -> seq<Fold>)
    requires i < |names| && FeaturedWide(f, |names|) && SplitFits(kfold, f)
    ensures FeaturedWide(f, i + 1)
    ensures Overwrite(names[..i + 1], ColumnF1s(sk, svm, f, i + 1, kfold)) ==
      Overwrite(names[..i], ColumnF1s(sk, svm, f, i, kfold))[names[i] := ColumnF1(sk, svm, f, i, kfold)]
  {
    ColumnF1sStep(sk, svm, f, i, kfold);
    OverwriteStep(names, ColumnF1s(sk, svm, f, i + 1, kfold), i);
  }

  /** Project column `i` of the positive and
      the negative rows, cross-validate the SVM on it, keep the F1 list. */
  method ColumnScores<P>(sk: Sklearn<P, seq<Feature>>, svm: Named<P, seq<Feature>>, f: FeaturedGigs,
                         i: nat, labels: seq<int>, kfold: nat -> seq<Fold>) returns (f1: seq<real>)
    requires FeaturedWide(f, i + 1) && SplitFits(kfold, f) && labels == LabelsFor(f)
    ensures f1 == ColumnF1(sk, svm, f, i, kfold)
  {
    var samples := Column(f.pos, i) + Column(f.neg, i);
    ColumnOfConcat(f.pos, f.neg, i);
    var scores := KFoldCrossVal(sk, Many([svm]), samples, labels, None, kfold(|samples|));
    f1 := scores.single.f1;
  }

  lemma OverwriteStep<V>(names: seq<string>, vals: seq<V>, i: int)
    requires 0 <= i < |names| && |vals| == i + 1
    ensures Overwrite(names[..i + 1], vals) == Overwrite(names[..i], vals[..i])[names[i] := vals[i]]
  {
    assert names[..i + 1][..i] == names[..i] && names[..i + 1][i] == names[i];
  }

  /** The feature labels number 20, as many as every featured row holds. */
  lemma LabelCount(f: FeaturedGigs)
    requires FullRows(f)
    ensures |FeatureLabels()| == 20 && FeaturedWide(f, 20)
  {
  }

  /** What `evaluate_feature_values` returns for the featured rows `f`:
      the table over the feature labels. */
  function FeatureValuesSpec<P>(sk: Sklearn<P, seq<Feature>>, svm: Named<P, seq<Feature>>, f: FeaturedGigs,
                                kfold: nat -> seq<Fold>): map<string, seq<real>>
    requires FullRows(f) && SplitFits(kfold, f)
  {
    LabelCount(f);
    FeatureTable(sk, svm, f, FeatureLabels(), kfold)
  }

  /** The body of `evaluate_feature_values` once the featured rows are
      known: build the labels, then run the column loop over the feature
      labels. */
  method FeatureValuesOf<P>(sk: Sklearn<P, seq<Feature>>, svm: Named<P, seq<Feature>>, f: FeaturedGigs,
                            kfold: nat -> seq<Fold>) returns (values: map<string, seq<real>>)
    requires FullRows(f) && SplitFits(kfold, f)
    ensures values == FeatureValuesSpec(sk, svm, f, kfold)
  {
    LabelCount(f);
    var labels := AssembleLabels(f);
    values := FillFeatureValues(sk, svm, f, FeatureLabels(), labels, kfold);
  }

  class Experimenter {
    var dm: DataModel

    constructor (dm: DataModel)
      ensures this.dm == dm
    {
      this.dm := dm;
    }

    /** `set_datamodel`. */
    method SetDatamodel(dm: DataModel)
      modifies this
      ensures this.dm == dm
    {
      this.dm := dm;
    }

    /** `classify_gigs`: cross-validate the classifiers on all featured
        rows. A failure to compute the split is passed on. */
    method ClassifyGigs<P>(sk: Sklearn<P, seq<Feature>>, clfs: seq<Named<P, seq<Feature>>>,
                           kfold: nat -> seq<Fold>)
        returns (r: Result<Returned<Scores, map<string, Scores>>, FeatureError>)
      requires dm.Valid() && SplitsFit(kfold)
      modifies dm
      ensures dm.Valid()
      ensures dm.gigs == old(dm.gigs) && dm.order == old(dm.order) && dm.chats == old(dm.chats)
      ensures r.Ok? <==> dm.featured.Some?
      ensures old(dm.featured).Some? ==> dm.featured == old(dm.featured)
      ensures old(dm.featured).None? ==>
        (r.Err? ==> BuildFeatured(dm.gigs, dm.order) == Err(r.error)) &&
        (r.Ok? ==> BuildFeatured(dm.gigs, dm.order) == Ok(dm.featured.value))
      ensures r.Ok? ==>
        var f := dm.featured.value;
        var x := f.pos + f.neg;
        r.value == CrossValReturned(sk, clfs, x, LabelsFor(f), kfold(|x|))
    {
      var featured := dm.GetFeaturedGigs();
      if featured.Err? {
        return Err(featured.error);
      }
      var f := featured.value;
      var samples, labels := AssembleSamples(f);
      assert SplitsFit(kfold) && FoldsFit(kfold(|samples|), |samples|, |samples|);
      var scores := KFoldCrossVal(sk, Many(clfs), samples, labels, None, kfold(|samples|));
      r := Ok(scores);
    }

    /** `evaluate_feature_values`: for each feature column in turn,
        cross-validate the SVM on that column alone and store its F1 list
        under the column's label. */
    method EvaluateFeatureValues<P>(sk: Sklearn<P, seq<Feature>>, svm: Named<P, seq<Feature>>,
                                    kfold: nat -> seq<Fold>)
        returns (r: Result<map<string, seq<real>>, FeatureError>)
      requires dm.Valid() && SplitsFit(kfold)
      modifies dm
      ensures dm.Valid()
      ensures dm.gigs == old(dm.gigs) && dm.order == old(dm.order) && dm.chats == old(dm.chats)
      ensures r.Ok? <==> dm.featured.Some?
      ensures old(dm.featured).Some? ==> dm.featured == old(dm.featured)
      ensures old(dm.featured).None? ==>
        (r.Err? ==> BuildFeatured(dm.gigs, dm.order) == Err(r.error)) &&
        (r.Ok? ==> BuildFeatured(dm.gigs, dm.order) == Ok(dm.featured.value))
      ensures r.Ok? ==> r.value == FeatureValuesSpec(sk, svm, dm.featured.value, kfold)
    {
      var featured := dm.GetFeaturedGigs();
      if featured.Err? {
        return Err(featured.error);
      }
      var f := featured.value;
      SplitFor(kfold, f);
      var values := FeatureValuesOf(sk, svm, f, kfold);
      r := Ok(values);
    }
  }
}
