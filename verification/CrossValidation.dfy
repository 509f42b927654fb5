/** The cross-validation bookkeeping of gigs/src/ml_utils.py: gathering the
    train and test slices of each fold, keeping four metric lists per
    classifier name, and returning predictions keyed by the classifier
    object.

    sklearn is outside the model. Its KFold split arrives as the list of
    folds it would yield, and fitting a clone then predicting is the
    function `fitPredict` of the estimator's parameters, the training slices
    and the test samples. The four metrics are the function `score`. */
module CrossValidation {
  import opened Entities

  /** One `(train_i, test_i)` pair of index lists. */
  datatype Fold = Fold(train: seq<int>, test: seq<int>)

  datatype Metric = Accuracy | Precision | Recall | F1Score

  /** What sklearn computes and the model cannot see. */
  datatype Sklearn<!P, !X> = Sklearn(
    fitPredict: (P, seq<X>, seq<int>, seq<X>) -> seq<real>,
    score: (Metric, seq<int>, seq<real>) -> real)

  /** The four values one classifier earns on one fold. */
  datatype Outcome = Outcome(accuracy: real, precision: real, recall: real, f1: real)

  /** `{ACCURACY: [...], F1_SCORE: [...], PRECISION: [...], RECALL: [...]}`. */
  datatype Scores = Scores(accuracy: seq<real>, f1: seq<real>, precision: seq<real>, recall: seq<real>)

  /** `{CLASSIFIER: estimator, STRING: name}`. */
  datatype Named<P, X> = Named(classifier: Estimator<P, X>, name: string)

  /** A classifier argument: a single one, or a list. */
  datatype OneOrMany<T> = One(item: T) | Many(items: seq<T>)

  /** What the single-or-list wrappers return. */
  datatype Returned<S, M> = ForOne(single: S) | ForMany(all: M)

  /** An sklearn estimator: fixed parameters, and the data it was last
      fitted on. */
  class Estimator<P, X> {
    const params: P
    var fitted: bool
    var trainX: seq<X>
    var trainY: seq<int>

    constructor (params: P)
      ensures this.params == params && !fitted
    {
      this.params := params;
      fitted := false;
      trainX := [];
      trainY := [];
    }

    /** `base.clone`: a new, unfitted estimator with the same parameters. */
    method Clone() returns (c: Estimator<P, X>)
      ensures fresh(c) && c.params == params && !c.fitted
    {
      c := new Estimator(params);
    }

    method Fit(xs: seq<X>, ys: seq<int>)
      modifies this
      ensures fitted && trainX == xs && trainY == ys
    {
      fitted, trainX, trainY := true, xs, ys;
    }

    function Predict(sk: Sklearn<P, X>, xs: seq<X>): seq<real>
      reads this
      requires fitted
    {
      sk.fitPredict(params, trainX, trainY, xs)
    }
  }

  /** `if type(classifiers) is not list: classifiers = [classifiers]`. */
  function ListOf<T>(c: OneOrMany<T>): seq<T>
  {
    match c
    case One(item) => [item]
    case Many(items) => items
  }

  // ------------------------------------------------------------ indexing

  /** Python accepts `-n <= i < n` as an index into a list of length n. */
  predicate ValidIndex(n: nat, i: int)
  {
    -(n as int) <= i < n
  }

  /** `s[i]`, counting from the end when `i` is negative: the index is taken
      modulo the length. */
  function At<T>(s: seq<T>, i: int): (r: T)
    requires ValidIndex(|s|, i)
    ensures r == s[i % |s|]
  {
    if i >= 0 then s[i] else s[|s| + i]
  }

  predicate Indexes(idx: seq<int>, n: nat)
  {
    forall k :: 0 <= k < |idx| ==> ValidIndex(n, idx[k])
  }

  /** Every index of the fold can be used on both `x` and `y`. */
  predicate FoldFits(f: Fold, nx: nat, ny: nat)
  {
    Indexes(f.train, nx) && Indexes(f.train, ny) && Indexes(f.test, nx) && Indexes(f.test, ny)
  }

  predicate FoldsFit(folds: seq<Fold>, nx: nat, ny: nat)
  {
    forall k :: 0 <= k < |folds| ==> FoldFits(folds[k], nx, ny)
  }

  /** Appending `s[index]` for each index in turn. */
  function Gather<T>(s: seq<T>, idx: seq<int>): (r: seq<T>)
    requires Indexes(idx, |s|)
    ensures |r| == |idx|
  {
    if idx == [] then []
    else Gather(s, idx[..|idx| - 1]) + [At(s, idx[|idx| - 1])]
  }

  /** `train_x[j] == x[train_i[j]]` for every position `j`. */
  lemma {:induction false} GatherAt<T>(s: seq<T>, idx: seq<int>)
    requires Indexes(idx, |s|)
    ensures forall j :: 0 <= j < |idx| ==> Gather(s, idx)[j] == At(s, idx[j])
  {
    if idx != [] {
      var init := idx[..|idx| - 1];
      GatherAt(s, init);
      assert forall j :: 0 <= j < |init| ==> init[j] == idx[j];
    }
  }

  method GatherInto<T>(s: seq<T>, idx: seq<int>) returns (r: seq<T>)
    requires Indexes(idx, |s|)
    ensures r == Gather(s, idx)
  {
    r := [];
    for k := 0 to |idx|
      invariant r == Gather(s, idx[..k])
    {
      assert idx[..k + 1][..k] == idx[..k];
      r := r + [At(s, idx[k])];
    }
    assert idx[..|idx|] == idx;
  }

  /** The two loops at the top of each fold: `train_x`, `train_y`,
      `test_x`, `test_y`. */
  method GatherFold<X>(x: seq<X>, y: seq<int>, f: Fold)
      returns (trainX: seq<X>, trainY: seq<int>, testX: seq<X>, testY: seq<int>)
    requires FoldFits(f, |x|, |y|)
    ensures trainX == Gather(x, f.train) && trainY == Gather(y, f.train)
    ensures testX == Gather(x, f.test) && testY == Gather(y, f.test)
  {
    trainX := GatherInto(x, f.train);
    trainY := GatherInto(y, f.train);
    testX := GatherInto(x, f.test);
    testY := GatherInto(y, f.test);
  }

  // ------------------------------------------------------- specification

  /** `[train_test_indices_pair]` when a pair is given, else the KFold
      split. */
  function FoldsOf(pair: Option<Fold>, kfold: seq<Fold>): seq<Fold>
  {
    if pair.Some? then [pair.value] else kfold
  }

  /** The four scores of a clone with `params`, fitted on the training
      slice of `f` and scored on its test slice. */
  function Evaluate<P, X>(sk: Sklearn<P, X>, params: P, x: seq<X>, y: seq<int>, f: Fold): Outcome
    requires FoldFits(f, |x|, |y|)
  {
    var testY := Gather(y, f.test);
    var pred := sk.fitPredict(params, Gather(x, f.train), Gather(y, f.train), Gather(x, f.test));
    Outcome(sk.score(Accuracy, testY, pred), sk.score(Precision, testY, pred),
            sk.score(Recall, testY, pred), sk.score(F1Score, testY, pred))
  }

  /** What one fold appends under `name`: one outcome for each classifier
      carrying that name, in list order. */
  function Round<P, X>(sk: Sklearn<P, X>, cs: seq<Named<P, X>>, name: string,
                       x: seq<X>, y: seq<int>, f: Fold): (r: seq<Outcome>)
    requires FoldFits(f, |x|, |y|)
    ensures |r| == CountNamed(cs, name)
  {
    if cs == [] then []
    else
      var c := cs[|cs| - 1];
      Round(sk, cs[..|cs| - 1], name, x, y, f) +
        (if c.name == name then [Evaluate(sk, c.classifier.params, x, y, f)] else [])
  }

  /** Everything appended under `name` over the folds, fold by fold: after
      the folds the lists hold `|folds| * CountNamed(cs, name)` values. */
  function History<P, X>(sk: Sklearn<P, X>, cs: seq<Named<P, X>>, name: string,
                         x: seq<X>, y: seq<int>, folds: seq<Fold>): (r: seq<Outcome>)
    requires FoldsFit(folds, |x|, |y|)
    ensures |r| == |folds| * CountNamed(cs, name)
  {
    if folds == [] then []
    else
      MulSucc(|folds| - 1, CountNamed(cs, name));
      History(sk, cs, name, x, y, folds[..|folds| - 1]) +
        Round(sk, cs, name, x, y, folds[|folds| - 1])
  }

  /** Append the four values of `o` to the four lists. */
  function Record(s: Scores, o: Outcome): Scores
  {
    Scores(s.accuracy + [o.accuracy], s.f1 + [o.f1], s.precision + [o.precision], s.recall + [o.recall])
  }

  /** Record each outcome in turn. */
  function Extend(s: Scores, os: seq<Outcome>): Scores
  {
    if os == [] then s else Record(Extend(s, os[..|os| - 1]), os[|os| - 1])
  }

  const NoScores := Scores([], [], [], [])

  /** The four lists that recording `os` into empty lists gives. */
  function Tally(os: seq<Outcome>): (s: Scores)
    ensures |s.accuracy| == |s.f1| == |s.precision| == |s.recall| == |os|
    ensures forall k :: 0 <= k < |os| ==>
      s.accuracy[k] == os[k].accuracy && s.f1[k] == os[k].f1 &&
      s.precision[k] == os[k].precision && s.recall[k] == os[k].recall
  {
    TallyOf(os);
    Extend(NoScores, os)
  }

  lemma {:induction false} TallyOf(os: seq<Outcome>)
    ensures var s := Extend(NoScores, os);
      |s.accuracy| == |s.f1| == |s.precision| == |s.recall| == |os| &&
      forall k :: 0 <= k < |os| ==>
        s.accuracy[k] == os[k].accuracy && s.f1[k] == os[k].f1 &&
        s.precision[k] == os[k].precision && s.recall[k] == os[k].recall
  {
    if os != [] {
      TallyOf(os[..|os| - 1]);
    }
  }

  lemma {:induction false} ExtendConcat(s: Scores, a: seq<Outcome>, b: seq<Outcome>)
    ensures Extend(s, a + b) == Extend(Extend(s, a), b)
  {
    if b != [] {
      assert (a + b)[..|a + b| - 1] == a + b[..|b| - 1];
      ExtendConcat(s, a, b[..|b| - 1]);
    } else {
      assert a + b == a;
    }
  }

  /** The classifiers' names, the keys of the result. */
  function NamesOf<P, X>(cs: seq<Named<P, X>>): set<string>
  {
    set i | 0 <= i < |cs| :: cs[i].name
  }

  /** What `kfold_cross_val_multi_clf` returns. */
  function CrossValSpec<P, X>(sk: Sklearn<P, X>, cs: seq<Named<P, X>>, x: seq<X>, y: seq<int>,
                              folds: seq<Fold>): (m: map<string, Scores>)
    requires FoldsFit(folds, |x|, |y|)
    ensures m.Keys == NamesOf(cs)
  {
    map n | n in NamesOf(cs) :: Tally(History(sk, cs, n, x, y, folds))
  }

  // ---------------------------------------------------------- properties

  /** How many classifiers carry `name`. */
  function CountNamed<P, X>(cs: seq<Named<P, X>>, name: string): (k: nat)
    ensures k <= |cs|
  {
    if cs == [] then 0
    else CountNamed(cs[..|cs| - 1], name) + (if cs[|cs| - 1].name == name then 1 else 0)
  }

  lemma MulSucc(a: nat, c: nat)
    ensures (a + 1) * c == a * c + c
  {
  }

  /** The key set is exactly the names, and under each name all four lists
      have one entry per fold and per classifier of that name: one entry
      per fold when names are distinct, one in all with an explicit pair. */
  lemma CrossValShape<P, X>(sk: Sklearn<P, X>, cs: seq<Named<P, X>>, x: seq<X>, y: seq<int>,
                            pair: Option<Fold>, kfold: seq<Fold>)
    requires FoldsFit(FoldsOf(pair, kfold), |x|, |y|)
    ensures var folds := FoldsOf(pair, kfold);
      var m := CrossValSpec(sk, cs, x, y, folds);
      m.Keys == NamesOf(cs) &&
      forall n :: n in m ==>
        var k := |folds| * CountNamed(cs, n);
        |m[n].accuracy| == k && |m[n].f1| == k && |m[n].precision| == k && |m[n].recall| == k
    ensures pair.Some? ==> |FoldsOf(pair, kfold)| == 1
  {
  }

  /** The scores of one estimator on each fold in turn. */
  function PerFold<P, X>(sk: Sklearn<P, X>, params: P, x: seq<X>, y: seq<int>, folds: seq<Fold>): (r: seq<Outcome>)
    requires FoldsFit(folds, |x|, |y|)
    ensures |r| == |folds|
  {
    if folds == [] then []
    else PerFold(sk, params, x, y, folds[..|folds| - 1]) + [Evaluate(sk, params, x, y, folds[|folds| - 1])]
  }

  /** Entry `k` of `PerFold` is the score on fold `k`. */
  lemma {:induction false} PerFoldAt<P, X>(sk: Sklearn<P, X>, params: P, x: seq<X>, y: seq<int>, folds: seq<Fold>)
    requires FoldsFit(folds, |x|, |y|)
    ensures forall k :: 0 <= k < |folds| ==> PerFold(sk, params, x, y, folds)[k] == Evaluate(sk, params, x, y, folds[k])
  {
    if folds != [] {
      var init := folds[..|folds| - 1];
      PerFoldAt(sk, params, x, y, init);
      assert forall k :: 0 <= k < |init| ==> folds[k] == init[k];
    }
  }

  /** When exactly one classifier, the one at `i`, carries its name, the
      lists under that name hold its score on each fold, in fold order. */
  lemma {:induction false} HistoryOfUnique<P, X>(sk: Sklearn<P, X>, cs: seq<Named<P, X>>, i: int,
                                                 x: seq<X>, y: seq<int>, folds: seq<Fold>)
    requires FoldsFit(folds, |x|, |y|)
    requires 0 <= i < |cs| && CountNamed(cs, cs[i].name) == 1
    ensures History(sk, cs, cs[i].name, x, y, folds) == PerFold(sk, cs[i].classifier.params, x, y, folds)
  {
    if folds != [] {
      var init := folds[..|folds| - 1];
      HistoryOfUnique(sk, cs, i, x, y, init);
      RoundOfUnique(sk, cs, i, x, y, folds[|folds| - 1]);
    }
  }

  lemma {:induction false} RoundOfUnique<P, X>(sk: Sklearn<P, X>, cs: seq<Named<P, X>>, i: int,
                                               x: seq<X>, y: seq<int>, f: Fold)
    requires FoldFits(f, |x|, |y|)
    requires 0 <= i < |cs| && CountNamed(cs, cs[i].name) == 1
    ensures Round(sk, cs, cs[i].name, x, y, f) == [Evaluate(sk, cs[i].classifier.params, x, y, f)]
  {
    var init := cs[..|cs| - 1];
    var name := cs[i].name;
    if i < |cs| - 1 {
      assert init[i] == cs[i];
      assert cs[|cs| - 1].name != name by {
        CountedOnce(init, i);
      }
      RoundOfUnique(sk, init, i, x, y, f);
    } else {
      NoneNamed(sk, init, name, x, y, f);
    }
  }

  /** A name that occurs at `i` is counted at least once. */
  lemma {:induction false} CountedOnce<P, X>(cs: seq<Named<P, X>>, i: int)
    requires 0 <= i < |cs|
    ensures CountNamed(cs, cs[i].name) >= 1
  {
    if i < |cs| - 1 {
      assert cs[..|cs| - 1][i] == cs[i];
      CountedOnce(cs[..|cs| - 1], i);
    }
  }

  lemma {:induction false} NoneNamed<P, X>(sk: Sklearn<P, X>, cs: seq<Named<P, X>>, name: string,
                                           x: seq<X>, y: seq<int>, f: Fold)
    requires FoldFits(f, |x|, |y|) && CountNamed(cs, name) == 0
    ensures Round(sk, cs, name, x, y, f) == []
  {
    if cs != [] {
      NoneNamed(sk, cs[..|cs| - 1], name, x, y, f);
    }
  }

  // --------------------------------------------------------- the methods

  /** The scores of one freshly cloned classifier on one fold. The caller's
      estimator is only read. */
  method ScoreClone<P, X>(sk: Sklearn<P, X>, c: Estimator<P, X>, x: seq<X>, y: seq<int>, f: Fold,
                          trainX: seq<X>, trainY: seq<int>, testX: seq<X>, testY: seq<int>)
      returns (o: Outcome)
    requires FoldFits(f, |x|, |y|)
    requires trainX == Gather(x, f.train) && trainY == Gather(y, f.train)
    requires testX == Gather(x, f.test) && testY == Gather(y, f.test)
    ensures o == Evaluate(sk, c.params, x, y, f)
  {
    var temp := c.Clone();
    temp.Fit(trainX, trainY);
    var pred := temp.Predict(sk, testX);
    o := Outcome(sk.score(Accuracy, testY, pred), sk.score(Precision, testY, pred),
                 sk.score(Recall, testY, pred), sk.score(F1Score, testY, pred));
  }

  /** What one fold does to the result: every name's lists grow by that
      name's round. */
  function ApplyRound<P, X>(m: map<string, Scores>, sk: Sklearn<P, X>, cs: seq<Named<P, X>>,
                            x: seq<X>, y: seq<int>, f: Fold): (r: map<string, Scores>)
    requires FoldFits(f, |x|, |y|)
    ensures r.Keys == m.Keys
  {
    map n | n in m :: Extend(m[n], Round(sk, cs, n, x, y, f))
  }

  /** One more classifier appends its outcome under its own name only. */
  lemma ApplyRoundStep<P, X>(m: map<string, Scores>, sk: Sklearn<P, X>, cs: seq<Named<P, X>>, j: int,
                             x: seq<X>, y: seq<int>, f: Fold)
    requires FoldFits(f, |x|, |y|) && 0 <= j < |cs| && cs[j].name in m
    ensures var before := ApplyRound(m, sk, cs[..j], x, y, f);
      ApplyRound(m, sk, cs[..j + 1], x, y, f) ==
        before[cs[j].name := Record(before[cs[j].name], Evaluate(sk, cs[j].classifier.params, x, y, f))]
  {
    var before := ApplyRound(m, sk, cs[..j], x, y, f);
    var after := ApplyRound(m, sk, cs[..j + 1], x, y, f);
    var k := cs[j].name;
    forall n | n in m
      ensures after[n] == if n == k then Record(before[n], Evaluate(sk, cs[j].classifier.params, x, y, f)) else before[n]
    {
      RoundStep(m[n], sk, cs, j, n, x, y, f);
    }
    UpdateOneKey(before, after, k, Record(before[k], Evaluate(sk, cs[j].classifier.params, x, y, f)));
  }

  /** Two maps on the same keys that differ at most at `k`, where the
      second holds `v`. */
  lemma UpdateOneKey<K, V>(a: map<K, V>, b: map<K, V>, k: K, v: V)
    requires a.Keys == b.Keys && k in a && b[k] == v
    requires forall n :: n in a && n != k ==> b[n] == a[n]
    ensures b == a[k := v]
  {
  }

  lemma RoundStep<P, X>(s: Scores, sk: Sklearn<P, X>, cs: seq<Named<P, X>>, j: int, n: string,
                        x: seq<X>, y: seq<int>, f: Fold)
    requires FoldFits(f, |x|, |y|) && 0 <= j < |cs|
    ensures Extend(s, Round(sk, cs[..j + 1], n, x, y, f)) ==
      if n == cs[j].name then Record(Extend(s, Round(sk, cs[..j], n, x, y, f)), Evaluate(sk, cs[j].classifier.params, x, y, f))
      else Extend(s, Round(sk, cs[..j], n, x, y, f))
  {
    var r := Round(sk, cs[..j], n, x, y, f);
    assert cs[..j + 1][..j] == cs[..j] && cs[..j + 1][j] == cs[j];
    if n == cs[j].name {
      ExtendConcat(s, r, [Evaluate(sk, cs[j].classifier.params, x, y, f)]);
    } else {
      assert r + [] == r;
    }
  }

  /** Before any fold, every name maps to four empty lists. */
  lemma NoFoldsNoScores<P, X>(sk: Sklearn<P, X>, cs: seq<Named<P, X>>, x: seq<X>, y: seq<int>)
    ensures CrossValSpec(sk, cs, x, y, []) == map n | n in NamesOf(cs) :: NoScores
  {
  }

  /** One more fold is one more round applied to the result so far. */
  lemma CrossValStep<P, X>(sk: Sklearn<P, X>, cs: seq<Named<P, X>>, x: seq<X>, y: seq<int>,
                           folds: seq<Fold>, i: int)
    requires FoldsFit(folds, |x|, |y|) && 0 <= i < |folds|
    ensures FoldsFit(folds[..i], |x|, |y|) && FoldsFit(folds[..i + 1], |x|, |y|)
    ensures CrossValSpec(sk, cs, x, y, folds[..i + 1]) ==
      ApplyRound(CrossValSpec(sk, cs, x, y, folds[..i]), sk, cs, x, y, folds[i])
  {
    var prefix := folds[..i + 1];
    assert prefix[..i] == folds[..i] && prefix[i] == folds[i];
    forall n | n in NamesOf(cs)
      ensures Tally(History(sk, cs, n, x, y, prefix)) ==
        Extend(Tally(History(sk, cs, n, x, y, folds[..i])), Round(sk, cs, n, x, y, folds[i]))
    {
      ExtendConcat(NoScores, History(sk, cs, n, x, y, folds[..i]), Round(sk, cs, n, x, y, folds[i]));
    }
  }

  /** The classifier loop of one fold. */
  method RunRound<P, X>(sk: Sklearn<P, X>, cs: seq<Named<P, X>>, x: seq<X>, y: seq<int>, f: Fold,
                        before: map<string, Scores>) returns (after: map<string, Scores>)
    requires FoldFits(f, |x|, |y|) && before.Keys == NamesOf(cs)
    ensures after == ApplyRound(before, sk, cs, x, y, f)
  {
    var trainX, trainY, testX, testY := GatherFold(x, y, f);
    after := before;
    assert after == ApplyRound(before, sk, cs[..0], x, y, f);
    for j := 0 to |cs|
      invariant after == ApplyRound(before, sk, cs[..j], x, y, f)
    {
      var c := cs[j];
      var o := ScoreClone(sk, c.classifier, x, y, f, trainX, trainY, testX, testY);
      assert c.name in before;
      ApplyRoundStep(before, sk, cs, j, x, y, f);
      after := after[c.name := Record(after[c.name], o)];
    }
    assert cs[..|cs|] == cs;
  }

  /** `kfold_cross_val_multi_clf`. Nothing outside the result is modified:
      each fold fits a clone, never the caller's estimator. */
  method KFoldCrossValMulti<P, X>(sk: Sklearn<P, X>, cs: seq<Named<P, X>>, x: seq<X>, y: seq<int>,
                                  pair: Option<Fold>, kfold: seq<Fold>) returns (result: map<string, Scores>)
    requires FoldsFit(FoldsOf(pair, kfold), |x|, |y|)
    ensures result == CrossValSpec(sk, cs, x, y, FoldsOf(pair, kfold))
  {
    var folds := FoldsOf(pair, kfold);
    result := map n | n in NamesOf(cs) :: NoScores;
    assert folds[..0] == [];
    NoFoldsNoScores(sk, cs, x, y);
    for i := 0 to |folds|
      invariant FoldsFit(folds[..i], |x|, |y|)
      invariant result == CrossValSpec(sk, cs, x, y, folds[..i])
    {
      CrossValStep(sk, cs, x, y, folds, i);
      result := RunRound(sk, cs, x, y, folds[i], result);
    }
    assert folds[..|folds|] == folds;
  }

  /** What `kfold_cross_val` returns for the classifier list `cs`: with
      exactly one classifier only its own scores, otherwise the whole map. */
  function CrossValReturned<P, X>(sk: Sklearn<P, X>, cs: seq<Named<P, X>>, x: seq<X>, y: seq<int>,
                                  folds: seq<Fold>): (r: Returned<Scores, map<string, Scores>>)
    requires FoldsFit(folds, |x|, |y|)
    ensures |cs| == 1 ==> r.ForOne? && r.single == Tally(PerFold(sk, cs[0].classifier.params, x, y, folds))
    ensures |cs| != 1 ==> r.ForMany? && r.all.Keys == NamesOf(cs)
    ensures |cs| != 1 ==> forall i :: 0 <= i < |cs| && CountNamed(cs, cs[i].name) == 1 ==>
      r.all[cs[i].name] == Tally(PerFold(sk, cs[i].classifier.params, x, y, folds))
  {
    var m := CrossValSpec(sk, cs, x, y, folds);
    assert forall i :: 0 <= i < |cs| ==> cs[i].name in NamesOf(cs);
    assert forall i :: 0 <= i < |cs| && CountNamed(cs, cs[i].name) == 1 ==>
      m[cs[i].name] == Tally(PerFold(sk, cs[i].classifier.params, x, y, folds)) by {
      forall i | 0 <= i < |cs| && CountNamed(cs, cs[i].name) == 1
        ensures m[cs[i].name] == Tally(PerFold(sk, cs[i].classifier.params, x, y, folds))
      {
        HistoryOfUnique(sk, cs, i, x, y, folds);
      }
    }
    if |cs| == 1 then
      assert cs[..0] == [];
      assert CountNamed(cs, cs[0].name) == 1;
      ForOne(m[cs[0].name])
    else ForMany(m)
  }

  /** `kfold_cross_val`: a lone classifier is first wrapped in a list. */
  method KFoldCrossVal<P, X>(sk: Sklearn<P, X>, classifiers: OneOrMany<Named<P, X>>, x: seq<X>, y: seq<int>,
                             pair: Option<Fold>, kfold: seq<Fold>)
      returns (r: Returned<Scores, map<string, Scores>>)
    requires FoldsFit(FoldsOf(pair, kfold), |x|, |y|)
    ensures r == CrossValReturned(sk, ListOf(classifiers), x, y, FoldsOf(pair, kfold))
  {
    var cs := ListOf(classifiers);
    var scores := KFoldCrossValMulti(sk, cs, x, y, pair, kfold);
    if |cs| == 1 {
      assert cs[0].name in NamesOf(cs);
      r := ForOne(scores[cs[0].name]);
    } else {
      r := ForMany(scores);
    }
  }

  /** With one classifier, its lists hold exactly its score on each fold,
      in fold order. */
  lemma SingleClassifierScores<P, X>(sk: Sklearn<P, X>, c: Named<P, X>, x: seq<X>, y: seq<int>,
                                     folds: seq<Fold>)
    requires FoldsFit(folds, |x|, |y|)
    ensures c.name in CrossValSpec(sk, [c], x, y, folds)
    ensures var s := CrossValSpec(sk, [c], x, y, folds)[c.name];
      |s.accuracy| == |s.f1| == |s.precision| == |s.recall| == |folds| &&
      forall k :: 0 <= k < |folds| ==>
        var o := Evaluate(sk, c.classifier.params, x, y, folds[k]);
        s.accuracy[k] == o.accuracy && s.f1[k] == o.f1 && s.precision[k] == o.precision && s.recall[k] == o.recall
  {
    assert [c][..0] == [];
    assert CountNamed([c], c.name) == 1;
    assert c.name in NamesOf([c]);
    HistoryOfUnique(sk, [c], 0, x, y, folds);
    PerFoldAt(sk, c.classifier.params, x, y, folds);
  }

  // --------------------------------------------------------- predictions

  /** `[int(i) for i in test_y_pred]`. */
  function Truncated(ps: seq<real>): (r: seq<int>)
    ensures |r| == |ps|
    ensures forall k :: 0 <= k < |ps| ==> r[k] == TruncToInt(ps[k])
  {
    if ps == [] then [] else Truncated(ps[..|ps| - 1]) + [TruncToInt(ps[|ps| - 1])]
  }

  /** The estimators in `cs`, as a set. */
  function EstimatorsIn<P, X>(cs: seq<Estimator<P, X>>): set<Estimator<P, X>>
  {
    set i | 0 <= i < |cs| :: cs[i]
  }

  lemma EstimatorsStep<P, X>(cs: seq<Estimator<P, X>>, j: int)
    requires 0 <= j < |cs|
    ensures EstimatorsIn(cs[..j + 1]) == EstimatorsIn(cs[..j]) + {cs[j]}
  {
    assert forall i :: 0 <= i < j ==> cs[..j + 1][i] == cs[..j][i];
    assert cs[..j + 1][j] == cs[j];
  }

  /** What a clone of `c` predicts for the test slice of `pair`. */
  function PredictionOf<P, X>(sk: Sklearn<P, X>, c: Estimator<P, X>, x: seq<X>, y: seq<int>, pair: Fold): seq<int>
    requires FoldFits(pair, |x|, |y|)
  {
    Truncated(sk.fitPredict(c.params, Gather(x, pair.train), Gather(y, pair.train), Gather(x, pair.test)))
  }

  /** `get_predictions_multi_clf`: keyed by the estimator object itself
      (two distinct estimators with equal parameters are two keys), each
      value the integer predictions of a clone fitted on the pair's
      training slice. */
  method GetPredictionsMulti<P, X>(sk: Sklearn<P, X>, classifiers: OneOrMany<Estimator<P, X>>,
                                   x: seq<X>, y: seq<int>, pair: Fold)
      returns (preds: map<Estimator<P, X>, seq<int>>)
    requires FoldFits(pair, |x|, |y|)
    ensures preds.Keys == EstimatorsIn(ListOf(classifiers))
    ensures forall c :: c in preds ==> preds[c] == PredictionOf(sk, c, x, y, pair)
  {
    var cs := ListOf(classifiers);
    var trainX, trainY, testX, testY := GatherFold(x, y, pair);
    preds := map[];
    for j := 0 to |cs|
      invariant preds.Keys == EstimatorsIn(cs[..j])
      invariant forall c :: c in preds ==> preds[c] == PredictionOf(sk, c, x, y, pair)
    {
      var temp := cs[j].Clone();
      temp.Fit(trainX, trainY);
      var pred := temp.Predict(sk, testX);
      preds := preds[cs[j] := Truncated(pred)];
      EstimatorsStep(cs, j);
    }
    assert cs[..|cs|] == cs;
  }

  /** `get_predictions`: with exactly one classifier, its own predictions
      rather than the map. */
  method GetPredictions<P, X>(sk: Sklearn<P, X>, classifiers: OneOrMany<Estimator<P, X>>,
                              x: seq<X>, y: seq<int>, pair: Fold)
      returns (r: Returned<seq<int>, map<Estimator<P, X>, seq<int>>>)
    requires FoldFits(pair, |x|, |y|)
    ensures var cs := ListOf(classifiers);
      (|cs| == 1 ==> r == ForOne(PredictionOf(sk, cs[0], x, y, pair))) &&
      (|cs| != 1 ==> (r.ForMany? && r.all.Keys == EstimatorsIn(cs) &&
        forall c :: c in r.all ==> r.all[c] == PredictionOf(sk, c, x, y, pair)))
  {
    var cs := ListOf(classifiers);
    var preds := GetPredictionsMulti(sk, classifiers, x, y, pair);
    if |cs| == 1 {
      assert cs[0] in EstimatorsIn(cs);
      r := ForOne(preds[cs[0]]);
    } else {
      r := ForMany(preds);
    }
  }
}
