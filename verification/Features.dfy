/** The feature extractor of `DataModel` (gigs/src/datamodel.py): the
    per-gig vector of `__get_features_for_gig` and the parallel label list of
    `get_feature_labels`.

    Every value the vector holds is kept exact: counts and codes are integers,
    the to-client ratio is its numerator and denominator, and the day-span
    weight `exp(-days)` is its whole-day span. */
module Features {
  import opened Entities
  import opened Sorting

  /** Document TYPE names with a histogram column, in the source's order. */
  const DocTypes: seq<string> := ["SYSTEM", "ATTACHMENT"]

  /** Document SUBTYPE names with a histogram column, in the source's order.
      PDF is listed twice and PROGRESS is left out on purpose (it gives the
      outcome away). */
  const DocSubtypes: seq<string> :=
    ["PROPOSAL", "IMAGE", "WORD", "CONTRACT", "PDF", "ZIP", "PDF", "NDA", "WHITEBOARD", "OTHER"]

  /** Milliseconds in a day: the unit of a timedelta's `.days`. */
  const DayMillis: nat := 86400000

  /** One position of a feature vector. */
  datatype Feature =
    | Int(value: int)                     // a count, a code or the raw price
    | Ratio(num: nat, den: nat)           // float(num) / den, with den > 0
    | DayDecay(days: nat)                 // math.exp(-1 * days)
    | ZScore(deviation: real, variance: real)  // deviation / sqrt(variance)

  /** `1 if stale is True else -1 if stale is False else 0`. */
  function StaleCode(s: Stale): int
  {
    match s
    case StaleTrue => 1
    case StaleFalse => -1
    case StaleUnknown => 0
  }

  // ---------------------------------------------------------------- labels

  /** `__get_doc_feature_labels`: the sorted type names, then the sorted
      subtype names. */
  function DocFeatureLabels(): (r: seq<string>)
    ensures |r| == 12
    ensures StrSorted(r[..2]) && SameStrings(r[..2], DocTypes)
    ensures StrSorted(r[2..]) && SameStrings(r[2..], DocSubtypes)
  {
    assert (SortStrings(DocTypes) + SortStrings(DocSubtypes))[..2] == SortStrings(DocTypes);
    assert (SortStrings(DocTypes) + SortStrings(DocSubtypes))[2..] == SortStrings(DocSubtypes);
    SortStrings(DocTypes) + SortStrings(DocSubtypes)
  }

  /** `__get_chat_feature_labels`: three labels, none of them a document
      type or subtype name. */
  function ChatFeatureLabels(): (r: seq<string>)
    ensures |r| == 3
    ensures forall i :: 0 <= i < |r| ==> r[i] !in DocTypes && r[i] !in DocSubtypes
  {
    ["client_to_customer_chat_ratio",
     "# of unique pm IDs",
     "inverse exponent of difference of days between 1st & last chat"]
  }

  /** `get_feature_labels`: five scalar labels, the document labels, the
      chat labels. */
  function FeatureLabels(): (ls: seq<string>)
    ensures |ls| == 20
  {
    ["Zero Mean Univariate Prices", "Number of platforms", "Number of documents",
     "Number of key features", "Is Gig Stale?"]
      + DocFeatureLabels() + ChatFeatureLabels()
  }

  /** Sorting the two type names puts ATTACHMENT first. */
  lemma SortedTypeNames()
    ensures SortStrings(DocTypes) == ["ATTACHMENT", "SYSTEM"]
  {
    var t: seq<string> := ["ATTACHMENT", "SYSTEM"];
    assert StrLe(t[0], t[1]);
    assert multiset(t) == multiset(DocTypes);
    SameStringsIsSameMultiset(t, DocTypes);
    SortingIsUnique(DocTypes);
  }

  // ------------------------------------------------------ document histogram

  /** Number of documents whose TYPE is `t`. */
  function CountKind(docs: seq<Doc>, t: string): (n: nat)
    ensures n <= |docs|
  {
    if docs == [] then 0
    else CountKind(docs[..|docs| - 1], t) + (if docs[|docs| - 1].kind == t then 1 else 0)
  }

  /** Number of documents whose SUBTYPE is `t`. */
  function CountSubkind(docs: seq<Doc>, t: string): (n: nat)
    ensures n <= |docs|
  {
    if docs == [] then 0
    else CountSubkind(docs[..|docs| - 1], t) + (if docs[|docs| - 1].subkind == t then 1 else 0)
  }

  /** Number of documents whose TYPE is one of `ts`. */
  function CountKindIn(docs: seq<Doc>, ts: set<string>): (n: nat)
    ensures n <= |docs|
  {
    if docs == [] then 0
    else CountKindIn(docs[..|docs| - 1], ts) + (if docs[|docs| - 1].kind in ts then 1 else 0)
  }

  /** One count of documents per TYPE name, in the order of `names`. */
  function KindCounts(docs: seq<Doc>, names: seq<string>): seq<Feature>
  {
    seq(|names|, j requires 0 <= j < |names| => Int(CountKind(docs, names[j])))
  }

  /** One count of documents per SUBTYPE name, in the order of `names`. */
  function SubkindCounts(docs: seq<Doc>, names: seq<string>): seq<Feature>
  {
    seq(|names|, j requires 0 <= j < |names| => Int(CountSubkind(docs, names[j])))
  }

  /** The histogram part of the vector: one count per sorted type name, then
      one per sorted subtype name. */
  function DocHistogram(docs: seq<Doc>): seq<Feature>
  {
    KindCounts(docs, SortStrings(DocTypes)) + SubkindCounts(docs, SortStrings(DocSubtypes))
  }

  /** A `defaultdict(int)` read: a missing key counts 0. */
  function Lookup(m: map<string, nat>, k: string): nat
  {
    if k in m then m[k] else 0
  }

  /** `__get_doc_features_for_gig`: count every TYPE and SUBTYPE in two
      `defaultdict` counters, then read the counters in sorted-name order. */
  method DocFeatures(docs: seq<Doc>) returns (f: seq<Feature>)
    ensures f == DocHistogram(docs)
  {
    var typeMap: map<string, nat> := map[];
    var subtypeMap: map<string, nat> := map[];
    for i := 0 to |docs|
      invariant forall t :: Lookup(typeMap, t) == CountKind(docs[..i], t)
      invariant forall t :: Lookup(subtypeMap, t) == CountSubkind(docs[..i], t)
    {
      assert docs[..i + 1][..i] == docs[..i];
      typeMap := typeMap[docs[i].kind := Lookup(typeMap, docs[i].kind) + 1];
      subtypeMap := subtypeMap[docs[i].subkind := Lookup(subtypeMap, docs[i].subkind) + 1];
    }
    assert docs[..|docs|] == docs;
    var types := SortStrings(DocTypes);
    var subtypes := SortStrings(DocSubtypes);
    f := [];
    for j := 0 to |types|
      invariant |f| == j
      invariant forall k :: 0 <= k < j ==> f[k] == Int(CountKind(docs, types[k]))
    {
      f := f + [Int(Lookup(typeMap, types[j]))];
    }
    for j := 0 to |subtypes|
      invariant |f| == |types| + j
      invariant forall k :: 0 <= k < |types| ==> f[k] == Int(CountKind(docs, types[k]))
      invariant forall k :: 0 <= k < j ==> f[|types| + k] == Int(CountSubkind(docs, subtypes[k]))
    {
      f := f + [Int(Lookup(subtypeMap, subtypes[j]))];
    }
  }

  /** The two type columns together count exactly the documents whose TYPE is
      SYSTEM or ATTACHMENT, hence never more than the documents. */
  lemma {:induction false} TypeColumnsSum(docs: seq<Doc>)
    ensures |DocHistogram(docs)| == 12
    ensures DocHistogram(docs)[0].value + DocHistogram(docs)[1].value
         == CountKindIn(docs, {"SYSTEM", "ATTACHMENT"}) <= |docs|
  {
    SortedTypeNames();
    TypeCountsAdd(docs);
  }

  lemma {:induction false} TypeCountsAdd(docs: seq<Doc>)
    ensures CountKind(docs, "ATTACHMENT") + CountKind(docs, "SYSTEM")
         == CountKindIn(docs, {"SYSTEM", "ATTACHMENT"})
  {
    if docs != [] { TypeCountsAdd(docs[..|docs| - 1]); }
  }

  /** Every name in the sorted list is one of the listed names. */
  lemma SortedNamesAreListed(names: seq<string>, j: int)
    requires 0 <= j < |SortStrings(names)|
    ensures SortStrings(names)[j] in names
  {
    var t := SortStrings(names)[j];
    OccurringIsMember(SortStrings(names), t);
    OccurringIsMember(names, t);
  }

  /** A document whose SUBTYPE is not listed (a PROGRESS document, say)
      leaves every subtype column as it was; it still counts in the column
      of its TYPE when that type is listed. */
  lemma UnlistedSubtypeCountsOnlyInType(docs: seq<Doc>, d: Doc)
    requires d.subkind !in DocSubtypes
    ensures |DocHistogram(docs + [d])| == |DocHistogram(docs)| == 12
    ensures DocHistogram(docs + [d])[2..] == DocHistogram(docs)[2..]
    ensures DocHistogram(docs + [d])[0].value + DocHistogram(docs + [d])[1].value ==
      DocHistogram(docs)[0].value + DocHistogram(docs)[1].value + (if d.kind in DocTypes then 1 else 0)
  {
    var docs' := docs + [d];
    assert docs'[..|docs'| - 1] == docs;
    TypeColumnsSum(docs);
    TypeColumnsSum(docs');
    var subtypes := SortStrings(DocSubtypes);
    forall j | 0 <= j < |subtypes|
      ensures CountSubkind(docs', subtypes[j]) == CountSubkind(docs, subtypes[j])
    {
      SortedNamesAreListed(DocSubtypes, j);
    }
  }

  /** A document whose TYPE is not listed leaves both type columns as they
      were. */
  lemma UnlistedTypeCountsOnlyInSubtype(docs: seq<Doc>, d: Doc)
    requires d.kind !in DocTypes
    ensures |DocHistogram(docs + [d])| == |DocHistogram(docs)| == 12
    ensures DocHistogram(docs + [d])[..2] == DocHistogram(docs)[..2]
  {
    var docs' := docs + [d];
    assert docs'[..|docs'| - 1] == docs;
    TypeColumnsSum(docs);
    var types := SortStrings(DocTypes);
    forall j | 0 <= j < |types| ensures CountKind(docs', types[j]) == CountKind(docs, types[j]) {
      SortedNamesAreListed(DocTypes, j);
    }
  }

  /** A document with neither a listed TYPE nor a listed SUBTYPE leaves the
      whole histogram as it was: it shows only in the document count. */
  lemma UnlistedDocCountsOnlyInTotal(docs: seq<Doc>, d: Doc)
    requires d.kind !in DocTypes && d.subkind !in DocSubtypes
    ensures DocHistogram(docs + [d]) == DocHistogram(docs)
  {
    UnlistedSubtypeCountsOnlyInType(docs, d);
    UnlistedTypeCountsOnlyInSubtype(docs, d);
    var h, h' := DocHistogram(docs), DocHistogram(docs + [d]);
    assert h == h[..2] + h[2..] && h' == h'[..2] + h'[2..];
  }

  /** The distinct listed subtypes. */
  const SubtypeSet: set<string> :=
    {"PROPOSAL", "IMAGE", "WORD", "CONTRACT", "PDF", "ZIP", "NDA", "WHITEBOARD", "OTHER"}

  /** Number of documents whose SUBTYPE is one of `ts`. */
  function CountSubkindIn(docs: seq<Doc>, ts: set<string>): (n: nat)
    ensures n <= |docs|
  {
    if docs == [] then 0
    else CountSubkindIn(docs[..|docs| - 1], ts) + (if docs[|docs| - 1].subkind in ts then 1 else 0)
  }

  /** The sum of the integer columns of `fs`. */
  function ColumnTotal(fs: seq<Feature>): int
  {
    if fs == [] then 0
    else ColumnTotal(fs[..|fs| - 1]) + (if fs[|fs| - 1].Int? then fs[|fs| - 1].value else 0)
  }

  /** How many of the columns named `names` each document of `docs` counts
      in, summed over the documents: a document counts once per occurrence of
      its SUBTYPE among the names. */
  function ListedTimes(docs: seq<Doc>, names: seq<string>): (n: nat)
    ensures docs == [] ==> n == 0
  {
    if docs == [] then 0
    else ListedTimes(docs[..|docs| - 1], names) + Occurrences(names, docs[|docs| - 1].subkind)
  }

  /** One more name adds that name's column to the total. */
  lemma {:induction false} ListedTimesSnoc(docs: seq<Doc>, names: seq<string>, t: string)
    ensures ListedTimes(docs, names + [t]) == ListedTimes(docs, names) + CountSubkind(docs, t)
  {
    assert (names + [t])[..|names|] == names;
    if docs != [] {
      ListedTimesSnoc(docs[..|docs| - 1], names, t);
    }
  }

  /** Reordering the names changes nothing. */
  lemma {:induction false} ListedTimesSame(docs: seq<Doc>, a: seq<string>, b: seq<string>)
    requires SameStrings(a, b)
    ensures ListedTimes(docs, a) == ListedTimes(docs, b)
  {
    if docs != [] {
      ListedTimesSame(docs[..|docs| - 1], a, b);
      SameStringsCount(a, b, docs[|docs| - 1].subkind);
    }
  }

  /** The count columns named `names` add up to `ListedTimes`. */
  lemma {:induction false} SubkindCountsTotal(docs: seq<Doc>, names: seq<string>)
    ensures ColumnTotal(SubkindCounts(docs, names)) == ListedTimes(docs, names)
  {
    if names == [] {
      assert SubkindCounts(docs, names) == [];
      if docs != [] {
        SubkindCountsTotal(docs[..|docs| - 1], names);
      }
    } else {
      var init, t := names[..|names| - 1], names[|names| - 1];
      SubkindCountsTotal(docs, init);
      assert SubkindCounts(docs, names)[..|init|] == SubkindCounts(docs, init);
      ListedTimesSnoc(docs, init, t);
      assert init + [t] == names;
    }
  }

  /** Occurrences in a list of ten names, spelled out. */
  lemma OccurrencesOfTen(a: string, b: string, c: string, d: string, e: string,
                         f: string, g: string, h: string, i: string, j: string, x: string)
    ensures Occurrences([a, b, c, d, e, f, g, h, i, j], x) ==
      (if a == x then 1 else 0) + (if b == x then 1 else 0) + (if c == x then 1 else 0) +
      (if d == x then 1 else 0) + (if e == x then 1 else 0) + (if f == x then 1 else 0) +
      (if g == x then 1 else 0) + (if h == x then 1 else 0) + (if i == x then 1 else 0) +
      (if j == x then 1 else 0)
  {
    OccurrencesOfSnoc([], a, x);
    assert [] + [a] == [a];
    OccurrencesOfSnoc([a], b, x);
    assert [a] + [b] == [a, b];
    OccurrencesOfSnoc([a, b], c, x);
    assert [a, b] + [c] == [a, b, c];
    OccurrencesOfSnoc([a, b, c], d, x);
    assert [a, b, c] + [d] == [a, b, c, d];
    OccurrencesOfSnoc([a, b, c, d], e, x);
    assert [a, b, c, d] + [e] == [a, b, c, d, e];
    OccurrencesOfSnoc([a, b, c, d, e], f, x);
    assert [a, b, c, d, e] + [f] == [a, b, c, d, e, f];
    OccurrencesOfSnoc([a, b, c, d, e, f], g, x);
    assert [a, b, c, d, e, f] + [g] == [a, b, c, d, e, f, g];
    OccurrencesOfSnoc([a, b, c, d, e, f, g], h, x);
    assert [a, b, c, d, e, f, g] + [h] == [a, b, c, d, e, f, g, h];
    OccurrencesOfSnoc([a, b, c, d, e, f, g, h], i, x);
    assert [a, b, c, d, e, f, g, h] + [i] == [a, b, c, d, e, f, g, h, i];
    OccurrencesOfSnoc([a, b, c, d, e, f, g, h, i], j, x);
    assert [a, b, c, d, e, f, g, h, i] + [j] == [a, b, c, d, e, f, g, h, i, j];
  }

  /** Every distinct subtype is listed once, except PDF, which is listed twice. */
  lemma SubtypeOccurrences(x: string)
    ensures Occurrences(DocSubtypes, x) == (if x in SubtypeSet then 1 else 0) + (if x == "PDF" then 1 else 0)
  {
    var u := DocSubtypes;
    OccurrencesOfTen(u[0], u[1], u[2], u[3], u[4], u[5], u[6], u[7], u[8], u[9], x);
    assert u == [u[0], u[1], u[2], u[3], u[4], u[5], u[6], u[7], u[8], u[9]];
  }

  /** Counting by listings is counting the listed documents, plus the PDF
      documents once more. */
  lemma {:induction false} ListedSubtypesTotal(docs: seq<Doc>)
    ensures ListedTimes(docs, DocSubtypes) == CountSubkindIn(docs, SubtypeSet) + CountSubkind(docs, "PDF")
  {
    if docs != [] {
      ListedSubtypesTotal(docs[..|docs| - 1]);
      SubtypeOccurrences(docs[|docs| - 1].subkind);
    }
  }

  /** The ten subtype columns do not partition the documents: together they
      count each document once per listing of its SUBTYPE, so once for a
      listed subtype, twice for PDF and never for an unlisted one. */
  lemma SubtypeColumnsSum(docs: seq<Doc>)
    ensures |DocHistogram(docs)| == 12
    ensures ColumnTotal(DocHistogram(docs)[2..]) == ListedTimes(docs, DocSubtypes)
    ensures ColumnTotal(DocHistogram(docs)[2..]) == CountSubkindIn(docs, SubtypeSet) + CountSubkind(docs, "PDF")
  {
    ListedSubtypesTotal(docs);
    assert DocHistogram(docs)[2..] == SubkindCounts(docs, SortStrings(DocSubtypes));
    SubkindCountsTotal(docs, SortStrings(DocSubtypes));
    ListedTimesSame(docs, SortStrings(DocSubtypes), DocSubtypes);
  }

  /** So the subtype columns can sum to more than the documents: one PDF
      document shows up in both PDF columns. */
  lemma PdfDocCountsTwice()
    ensures ColumnTotal(DocHistogram([Doc("SYSTEM", "PDF")])[2..]) == 2 > |[Doc("SYSTEM", "PDF")]|
  {
    var docs := [Doc("SYSTEM", "PDF")];
    SubtypeColumnsSum(docs);
    assert docs[..0] == [];
  }

  // ----------------------------------------------------------- chat features

  /** Keys among `ks` of messages not sent automatically. */
  function HumanAmong(chats: map<string, Chat>, ks: set<string>): set<string>
  {
    set k | k in ks && k in chats && !chats[k].isAuto
  }

  /** Keys among `ks` of human messages flagged to-client. */
  function ToClientAmong(chats: map<string, Chat>, ks: set<string>): set<string>
  {
    set k | k in ks && k in chats && !chats[k].isAuto && chats[k].toClient
  }

  /** Distinct string PM ids of human messages among `ks`. */
  function PmIdsAmong(chats: map<string, Chat>, ks: set<string>): set<string>
  {
    set k | k in ks && k in chats && !chats[k].isAuto && chats[k].pmId.Some? :: chats[k].pmId.value
  }

  /** Timestamps of human messages among `ks`. */
  function StampsAmong(chats: map<string, Chat>, ks: set<string>): set<int>
  {
    set k | k in ks && k in chats && !chats[k].isAuto :: chats[k].timestamp
  }

  lemma HasElement(s: set<int>)
    requires s != {}
    ensures exists x :: x in s
  {
    if forall x: int :: x !in s {
      assert false;
    }
  }

  ghost function SetMax(s: set<int>): (m: int)
    requires s != {}
    ensures m in s && forall x :: x in s ==> x <= m
    decreases |s|
  {
    HasElement(s);
    var x :| x in s;
    if s == {x} then x
    else
      var y := SetMax(s - {x});
      assert forall z :: z in s ==> z == x || z in s - {x};
      if x <= y then y else x
  }

  ghost function SetMin(s: set<int>): (m: int)
    requires s != {}
    ensures m in s && forall x :: x in s ==> m <= x
    decreases |s|
  {
    HasElement(s);
    var x :| x in s;
    if s == {x} then x
    else
      var y := SetMin(s - {x});
      assert forall z :: z in s ==> z == x || z in s - {x};
      if y <= x then y else x
  }

  /** Whole days between the earliest and the latest human message, 0 when
      there is none. */
  ghost function DaySpan(chats: map<string, Chat>): nat
  {
    SpanOf(StampsAmong(chats, chats.Keys))
  }

  /** Whole days from the least to the greatest of `ts`, 0 for none. */
  ghost function SpanOf(ts: set<int>): nat
  {
    if ts == {} then 0 else (SetMax(ts) - SetMin(ts)) / DayMillis
  }

  /** The to-client ratio: human to-client messages over ALL messages
      (automated ones included), and the integer 0 when there are none. */
  function ToClientRatio(chats: map<string, Chat>): Feature
  {
    if |chats| > 0 then Ratio(|ToClientAmong(chats, chats.Keys)|, |chats|) else Int(0)
  }

  /** The three chat features, as `__get_chat_features_for_gig` returns them. */
  ghost function ChatFeatures(chats: map<string, Chat>): seq<Feature>
  {
    [ToClientRatio(chats), Int(|PmIdsAmong(chats, chats.Keys)|), DayDecay(DaySpan(chats))]
  }

  /** The pass of `__get_chat_features_for_gig` over the messages: automated
      messages are skipped; the others are counted when flagged to-client
      and give their PM id (when it is a string) and their timestamp. The
      order of the pass does not matter. */
  method ScanChats(chats: map<string, Chat>) returns (toClientCount: nat, pmIds: seq<string>, stamps: seq<int>)
    ensures toClientCount == |ToClientAmong(chats, chats.Keys)|
    ensures (set p | p in pmIds) == PmIdsAmong(chats, chats.Keys)
    ensures (set t | t in stamps) == StampsAmong(chats, chats.Keys)
  {
    var remaining := chats.Keys;
    ghost var seen: set<string> := {};
    toClientCount, pmIds, stamps := 0, [], [];
    while remaining != {}
      invariant seen + remaining == chats.Keys && seen !! remaining
      invariant toClientCount == |ToClientAmong(chats, seen)|
      invariant (set p | p in pmIds) == PmIdsAmong(chats, seen)
      invariant (set t | t in stamps) == StampsAmong(chats, seen)
      decreases remaining
    {
      var k :| k in remaining;
      var chat := chats[k];
      ScanStep(chats, seen, k);
      if !chat.isAuto {
        if chat.toClient {
          toClientCount := toClientCount + 1;
        }
        if chat.pmId.Some? {
          ElementsOfAppend(pmIds, chat.pmId.value);
          pmIds := pmIds + [chat.pmId.value];
        }
        ElementsOfAppend(stamps, chat.timestamp);
        stamps := stamps + [chat.timestamp];
      }
      remaining := remaining - {k};
      seen := seen + {k};
    }
  }

  /** `__get_chat_features_for_gig`: the ratio of to-client messages to all
      messages, the number of distinct PM ids, and the whole days between the
      first and the last human message after sorting their timestamps. */
  method ChatFeaturesOf(chats: map<string, Chat>) returns (f: seq<Feature>)
    ensures f == ChatFeatures(chats)
  {
    var toClientCount, pmIds, stamps := ScanChats(chats);
    var days := DaysBetween(stamps);
    var ratio := if |chats| > 0 then Ratio(toClientCount, |chats|) else Int(0);
    f := [ratio, Int(|set p | p in pmIds|), DayDecay(days)];
  }

  /** Sort the timestamps and take whole days from the first to the last. */
  method DaysBetween(stamps: seq<int>) returns (days: nat)
    ensures days == SpanOf(set t | t in stamps)
  {
    var sorted := SortInts(stamps);
    days := 0;
    if |sorted| > 0 {
      SortedSpan(stamps, set t | t in stamps);
      days := (sorted[|sorted| - 1] - sorted[0]) / DayMillis;
    } else {
      assert (set t | t in stamps) == {};
    }
  }

  lemma ElementsOfAppend<T>(s: seq<T>, v: T)
    ensures (set x | x in s + [v]) == (set x | x in s) + {v}
  {
  }

  /** What one more message adds to each of the collected sets. */
  lemma ScanStep(chats: map<string, Chat>, done: set<string>, k: string)
    requires k in chats && k !in done
    ensures var c := chats[k];
      |ToClientAmong(chats, done + {k})| ==
        |ToClientAmong(chats, done)| + (if !c.isAuto && c.toClient then 1 else 0)
    ensures var c := chats[k];
      PmIdsAmong(chats, done + {k}) ==
        PmIdsAmong(chats, done) + (if !c.isAuto && c.pmId.Some? then {c.pmId.value} else {})
    ensures var c := chats[k];
      StampsAmong(chats, done + {k}) == StampsAmong(chats, done) + (if !c.isAuto then {c.timestamp} else {})
  {
    var c := chats[k];
    if !c.isAuto && c.toClient {
      assert ToClientAmong(chats, done + {k}) == ToClientAmong(chats, done) + {k};
    } else {
      assert ToClientAmong(chats, done + {k}) == ToClientAmong(chats, done);
    }
  }

  /** The first and last of the sorted timestamps are the least and the
      greatest of them. */
  lemma SortedSpan(stamps: seq<int>, ts: set<int>)
    requires |stamps| > 0 && (set t | t in stamps) == ts
    ensures ts != {}
    ensures SortInts(stamps)[0] == SetMin(ts)
    ensures SortInts(stamps)[|stamps| - 1] == SetMax(ts)
  {
    var sorted := SortInts(stamps);
    SortIntsEnds(stamps);
    assert stamps[0] in ts;
    var lo, hi := SetMin(ts), SetMax(ts);
    assert lo in stamps && hi in stamps;
    assert sorted[0] in ts && sorted[|sorted| - 1] in ts;
  }

  lemma {:induction false} SubsetCard<T>(a: set<T>, b: set<T>)
    requires a <= b
    ensures |a| <= |b|
    decreases b
  {
    if a != {} {
      var x :| x in a;
      SubsetCard(a - {x}, b - {x});
    }
  }

  lemma {:induction false} PmIdsAtMostHuman(chats: map<string, Chat>, ks: set<string>)
    ensures |PmIdsAmong(chats, ks)| <= |HumanAmong(chats, ks)|
    decreases ks
  {
    if ks != {} {
      var k :| k in ks;
      PmIdsAtMostHuman(chats, ks - {k});
      var pms := PmIdsAmong(chats, ks - {k});
      var hs := HumanAmong(chats, ks - {k});
      if k in chats && !chats[k].isAuto {
        assert HumanAmong(chats, ks) == hs + {k} && k !in hs;
        if chats[k].pmId.Some? {
          assert PmIdsAmong(chats, ks) == pms + {chats[k].pmId.value};
        } else {
          assert PmIdsAmong(chats, ks) == pms;
        }
      } else {
        assert HumanAmong(chats, ks) == hs;
        assert PmIdsAmong(chats, ks) == pms;
      }
    }
  }

  /** The counting features stay within their bounds: to-client messages are
      among the human ones, which are among all messages, so the ratio's
      numerator never exceeds its denominator; there are no more distinct PM
      ids than human messages; with no messages at all the three features
      are 0, 0 and exp(0). */
  lemma ChatFeatureBounds(chats: map<string, Chat>)
    ensures |ToClientAmong(chats, chats.Keys)| <= |HumanAmong(chats, chats.Keys)| <= |chats|
    ensures |PmIdsAmong(chats, chats.Keys)| <= |HumanAmong(chats, chats.Keys)|
    ensures ToClientRatio(chats).Ratio? ==> ToClientRatio(chats).num <= ToClientRatio(chats).den
    ensures chats == map[] ==> ChatFeatures(chats) == [Int(0), Int(0), DayDecay(0)]
  {
    SubsetCard(ToClientAmong(chats, chats.Keys), HumanAmong(chats, chats.Keys));
    SubsetCard(HumanAmong(chats, chats.Keys), chats.Keys);
    PmIdsAtMostHuman(chats, chats.Keys);
    if chats == map[] {
      assert PmIdsAmong(chats, chats.Keys) == {};
      assert StampsAmong(chats, chats.Keys) == {};
    }
  }

  // ------------------------------------------------------------ whole vector

  /** `__get_features_for_gig`: price, platform count, document count,
      key-feature count, stale code, the histogram, the chat features. One
      value per label. */
  ghost function FeaturesFor(g: Gig): (r: seq<Feature>)
    ensures |r| == 20
  {
    [Int(g.price), Int(|g.platforms|), Int(|g.docs|), Int(|g.keyFeatures|), Int(StaleCode(g.stale))]
      + DocHistogram(g.docs) + ChatFeatures(g.chats)
  }

  /** `__get_features_for_gig`, built by appending as the source does. */
  method FeaturesForGig(g: Gig) returns (v: seq<Feature>)
    ensures v == FeaturesFor(g)
  {
    v := [];
    v := v + [Int(g.price)];
    v := v + [Int(|g.platforms|)];
    v := v + [Int(|g.docs|)];
    v := v + [Int(|g.keyFeatures|)];
    v := v + [Int(if g.stale == StaleTrue then 1 else if g.stale == StaleFalse then -1 else 0)];
    var docFeatures := DocFeatures(g.docs);
    v := v + docFeatures;
    var chatFeatures := ChatFeaturesOf(g.chats);
    v := v + chatFeatures;
  }

  /** Labels and features stay in lockstep: both have 20 positions, and the
      column labelled with a document type (subtype) name counts the
      documents of that type (subtype). */
  lemma LabelsMatchFeatures(g: Gig)
    ensures |FeaturesFor(g)| == |FeatureLabels()| == 20
    ensures forall j :: 5 <= j < 7 ==> FeaturesFor(g)[j] == Int(CountKind(g.docs, FeatureLabels()[j]))
    ensures forall j :: 7 <= j < 17 ==> FeaturesFor(g)[j] == Int(CountSubkind(g.docs, FeatureLabels()[j]))
    ensures FeatureLabels()[17..] == ChatFeatureLabels()
  {
  }

  /** PDF is listed twice among the subtypes and not among the types. */
  lemma PdfListedTwice()
    ensures Occurrences(DocSubtypes, "PDF") == 2
    ensures Occurrences(DocTypes, "PDF") == 0
  {
    OccurrencesAreMultiplicity(DocSubtypes, "PDF");
    OccurrencesAreMultiplicity(DocTypes, "PDF");
    assert multiset(DocSubtypes)["PDF"] == 2;
  }

  /** PDF labels two columns, and the two always hold the same count: the
      number of PDF documents. So the two columns are a duplicate, and a
      map from label to column keeps one of them without losing anything. */
  lemma DuplicatedPdfColumn(g: Gig)
    ensures Occurrences(FeatureLabels(), "PDF") == 2
    ensures forall i :: 0 <= i < |FeatureLabels()| && FeatureLabels()[i] == "PDF" ==>
      7 <= i < 17 && FeaturesFor(g)[i] == Int(CountSubkind(g.docs, "PDF"))
  {
    LabelsMatchFeatures(g);
    var scalar: seq<string> := FeatureLabels()[..5];
    var types, subtypes := SortStrings(DocTypes), SortStrings(DocSubtypes);
    assert FeatureLabels() == scalar + types + subtypes + ChatFeatureLabels();
    OccurrencesOfConcat(scalar + types + subtypes, ChatFeatureLabels(), "PDF");
    OccurrencesOfConcat(scalar + types, subtypes, "PDF");
    OccurrencesOfConcat(scalar, types, "PDF");
    SameStringsCount(types, DocTypes, "PDF");
    SameStringsCount(subtypes, DocSubtypes, "PDF");
    PdfListedTwice();
    OccurringIsMember(scalar, "PDF");
    OccurringIsMember(ChatFeatureLabels(), "PDF");
    forall i | 0 <= i < 20 && FeatureLabels()[i] == "PDF" ensures 7 <= i < 17 {
      if 5 <= i < 7 {
        SortedNamesAreListed(DocTypes, i - 5);
      }
    }
  }

  /** The scalar columns of a normalised row: the list columns give their
      lengths (0 for an empty text) and the stale column is 1, -1 or 0 as
      the STALE text contains "true", else "false", else neither. */
  lemma ScalarColumns(row: RawRow, g: Gig)
    requires NormalizeGig(row) == Ok(g)
    ensures FeaturesFor(g)[0] == Int(TruncToInt(row.price.value))
    ensures FeaturesFor(g)[1] == Int(|DecodeList(row.platforms)|)
    ensures FeaturesFor(g)[2] == Int(|DecodeList(row.docs)|)
    ensures FeaturesFor(g)[3] == Int(|DecodeList(row.keyFeatures)|)
    ensures row.platforms.Blank? ==> FeaturesFor(g)[1] == Int(0)
    ensures FeaturesFor(g)[4] == Int(1) <==> exists i :: OccursAt(row.stale, "true", i)
    ensures FeaturesFor(g)[4] == Int(-1) <==>
      (!exists i :: OccursAt(row.stale, "true", i)) && exists i :: OccursAt(row.stale, "false", i)
    ensures FeaturesFor(g)[4] == Int(0) <==>
      (!exists i :: OccursAt(row.stale, "true", i)) && !exists i :: OccursAt(row.stale, "false", i)
  {
  }

  /** A gig without documents or messages has only zero document and chat
      features. */
  lemma NoDocsNoChats(g: Gig)
    requires g.docs == [] && g.chats == map[]
    ensures FeaturesFor(g)[2] == Int(0)
    ensures forall j :: 5 <= j < 19 ==> FeaturesFor(g)[j] == Int(0)
    ensures FeaturesFor(g)[19] == DayDecay(0)
  {
    ChatFeatureBounds(g.chats);
  }
}
