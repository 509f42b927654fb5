# gigs: a verified model of the feature extractor and the experiments

The gigs project reads freelance "gigs" from a CSV file and their chat
messages from a JSON file. It turns every gig into a 20-column feature
vector and labels it positive or negative by its status. It then measures
two things with scikit-learn: how well a list of classifiers predicts the
label under k-fold cross-validation, and how much each single feature
column contributes to the F1 score of an SVM.

This Dafny project models the three core files of that pipeline:

- `DataModel` in `gigs/src/datamodel.py`. It normalises rows, indexes gigs
  by identifier, attaches chats and extracts features. It standardises
  prices and splits the vectors by label. The cached split is kept between
  calls.
- The cross-validation helpers of `gigs/src/ml_utils.py`. They gather the
  train and test slices of each fold, keep four metric lists per classifier
  name, and return predictions keyed by the classifier.
- `Experimenter` in `gigs/src/experimenter.py`. Its methods are
  `classify_gigs` and `evaluate_feature_values`.

The modules are as follows:

- `Sorting` holds Python's `sorted` on strings and on integers.
- `Entities` holds the gig, row and chat records and the row normalisation.
- `Features` holds the feature vector and its labels.
- `Dataset` holds the `DataModel` class, with `gigs`, `order`, `chats` and
  the cached `featured` split as fields that its methods update.
- `CrossValidation` holds the `Estimator` class and the cross-validation
  loops.
- `Experiments` holds the `Experimenter` class.

Each loop that builds a result step by step is a `method` with loop
invariants, proved equal to a specification function; the properties are
proved about those functions as lemmas. Code that only parses, slices or
copies a sorted list is a function of its own: the row normalisation
(`NormalizeGig`) and the document labels (`DocFeatureLabels`).

Floating-point values are kept exact:
- a count, a code or the raw price is an integer;
- the to-client ratio is stored as its numerator and denominator;
- `exp(-days)` is stored as the whole-day span;
- a standardised price is stored as its deviation from the mean and the
  sample variance.

scikit-learn is a parameter `Sklearn` with two functions:
- `fitPredict`: what a clone with given parameters, fitted on the training
  slice, predicts for the test samples;
- `score`: each of the four metrics.

KFold is a parameter `kfold` that maps a sample count to the folds it
yields. Every cross-validation of one experiment draws its folds from that
one parameter.

Where the code differs from the project's description of itself, the model
follows the code:
- A PM id that is the empty string is still counted as a unique PM id,
  because the code only tests that the value is a string.
- The identifier is the text after the first `(` up to the next `)`. It
  stops early at a second `(`.
- PDF is listed twice among the subtypes. It therefore gives two equal
  columns and two equal labels. In the per-feature table the second of
  these overwrites the first.
- The ten subtype columns do not sum to at most the number of documents:
  a PDF document counts in both PDF columns, so one PDF document gives a
  subtype total of 2.
- Python's negative list indices are accepted in the fold index lists.

## Model

| member | source | states |
|---|---|---|
| Sorting.StrLeTotal | gigs/src/datamodel.py:104-107 | Python's string order is total: of any two strings, one is `<=` the other |
| Sorting.StrLeAntisymmetric | gigs/src/datamodel.py:104-107 | two strings each `<=` the other are equal |
| Sorting.StrLeTransitive | gigs/src/datamodel.py:104-107 | the string order is transitive |
| Sorting.InsertionSort | gigs/src/datamodel.py:104-107 | an ordered permutation of any list of strings exists |
| Sorting.SortStrings | gigs/src/datamodel.py:104-107 | `sorted` on strings is ordered, holds every string exactly as often as the input and has its length |
| Sorting.SortedUnique | gigs/src/datamodel.py:104-107 | two ordered lists with the same elements are equal, so `sorted` has exactly one result |
| Sorting.SortingIsUnique | gigs/src/datamodel.py:104-107 | every ordered rearrangement of a list is the same list |
| Sorting.OccurrencesAreMultiplicity | gigs/src/datamodel.py:101-102 | counting a name in a list equals its multiplicity in the list's multiset |
| Sorting.SortInts | gigs/src/datamodel.py:163 | sorting timestamps yields an ordered permutation of the same length |
| Sorting.SortIntsEnds | gigs/src/datamodel.py:169-171 | after sorting, the first timestamp is the least and the last the greatest of the input |
| Entities.FirstIndex | gigs/src/datamodel.py:48 | none exactly when the character is absent; otherwise an index of the character with no earlier occurrence |
| Entities.UpTo | gigs/src/datamodel.py:48 | `split(c)[0]` is a prefix free of `c` that ends at the end of the text or just before a `c` |
| Entities.UpToStopsAt | gigs/src/datamodel.py:48 | the part before `c` of a text followed by `c`, or by nothing, is that text |
| Entities.ExtractId | gigs/src/datamodel.py:48 | succeeds exactly when the key holds `(`, else the IndexError; the result has no parentheses and lies right after some `(` |
| Entities.ExtractIdOfWrapped | gigs/src/datamodel.py:48 | `prefix(id)rest` yields exactly `id` |
| Entities.TruncToInt | gigs/src/datamodel.py:49 | `int(float(x))` truncates toward zero, for both signs |
| Entities.ContainsMeansOccurs | gigs/src/datamodel.py:52-54 | Python's `sub in s` holds exactly when `sub` occurs at some position of `s` |
| Entities.ParseStale | gigs/src/datamodel.py:52-57 | True exactly when "true" occurs somewhere in the text (even beside "false"); False exactly when "false" occurs and "true" does not; None exactly when neither occurs |
| Entities.NormalizeGig | gigs/src/datamodel.py:40-58 | succeeds exactly when the id, price and both dates parse; names which field raised first; maps every field of a good row |
| Features.FeatureLabels | gigs/src/datamodel.py:177-187 | there are twenty labels |
| Features.DocFeatureLabels | gigs/src/datamodel.py:97-109 | twelve labels: the two type names in sorted order, then the ten subtype names (PDF twice) in sorted order |
| Features.ChatFeatureLabels | gigs/src/datamodel.py:132-138 | three labels, none of them a document type or subtype name |
| Features.SortedTypeNames | gigs/src/datamodel.py:104-105 | the type columns come as ATTACHMENT, then SYSTEM |
| Features.SortedNamesAreListed | gigs/src/datamodel.py:124-127 | every sorted column name is one of the listed names |
| Features.DocFeatures | gigs/src/datamodel.py:112-129 | the counting loop yields the histogram: per sorted type, then per sorted subtype, how many documents carry it |
| Features.TypeColumnsSum | gigs/src/datamodel.py:121-125 | there are 12 histogram columns, and the two type columns sum to the number of documents of a listed type, at most all documents |
| Features.TypeCountsAdd | gigs/src/datamodel.py:121-125 | the per-type counts add up to the count over the set of listed types |
| Features.UnlistedSubtypeCountsOnlyInType | gigs/src/datamodel.py:119-127 | a document whose subtype is unlisted (PROGRESS, say) changes no subtype column; it adds one to the type columns exactly when its type is listed |
| Features.UnlistedTypeCountsOnlyInSubtype | gigs/src/datamodel.py:119-125 | a document whose type is unlisted changes neither type column |
| Features.UnlistedDocCountsOnlyInTotal | gigs/src/datamodel.py:119-127 | a document of an unlisted type and subtype leaves the whole histogram unchanged |
| Features.ScanChats | gigs/src/datamodel.py:147-159 | the loop counts the non-automatic to-client chats and collects the PM ids and the timestamps of non-automatic chats |
| Features.ScanStep | gigs/src/datamodel.py:147-159 | one more chat adds to the count and to the sets exactly when it is not automatic and has the property |
| Features.DaysBetween | gigs/src/datamodel.py:169-172 | the day span is the whole-day span between the least and the greatest timestamp |
| Features.SortedSpan | gigs/src/datamodel.py:163-171 | the first and last of the sorted timestamps are the minimum and maximum of the timestamp set |
| Features.ChatFeaturesOf | gigs/src/datamodel.py:141-174 | the three chat features are the ratio over all chats, the unique PM id count and the day-span weight |
| Features.PmIdsAtMostHuman | gigs/src/datamodel.py:155-168 | there are no more unique PM ids than non-automatic chats |
| Features.ChatFeatureBounds | gigs/src/datamodel.py:164-172 | to-client chats ≤ non-automatic chats ≤ all chats; the ratio is at most 1; no chats give `[0, 0, exp(0)]` |
| Features.FeaturesFor | gigs/src/datamodel.py:190-200 | a gig's vector has twenty values, one per label; `LabelsMatchFeatures` lines each column up with its label |
| Features.FeaturesForGig | gigs/src/datamodel.py:190-200 | the vector is the five scalars, then the document histogram, then the chat features |
| Features.LabelsMatchFeatures | gigs/src/datamodel.py:177-200 | vector and labels both have length 20; columns 5–16 count the type or subtype their label names; the last three labels are the chat labels |
| Features.PdfListedTwice | gigs/src/datamodel.py:101-102 | PDF occurs twice among the subtypes and never among the types |
| Features.DuplicatedPdfColumn | gigs/src/datamodel.py:117-127 | "PDF" labels two columns, both subtype columns holding the same PDF count |
| Features.SubtypeOccurrences | gigs/src/datamodel.py:117-118 | every listed subtype occurs once in the list, except PDF, which occurs twice |
| Features.ListedSubtypesTotal | gigs/src/datamodel.py:117-127 | counting each document once per listing of its subtype equals the listed-subtype documents plus the PDF documents once more |
| Features.SubtypeColumnsSum | gigs/src/datamodel.py:117-127 | the ten subtype columns sum to the documents of a listed subtype plus the PDF documents again, not to at most the document count |
| Features.PdfDocCountsTwice | gigs/src/datamodel.py:117-127 | one document of subtype PDF gives a subtype-column total of 2, more than the one document |
| Features.ScalarColumns | gigs/src/datamodel.py:192-196 | columns 0–4 are the truncated price, the lengths of the three decoded lists, and the stale code 1/−1/0 with its exact conditions |
| Features.NoDocsNoChats | gigs/src/datamodel.py:190-200 | a gig without documents and chats has zero counts and the weight `exp(0)` |
| Dataset.TraverseFirstError | gigs/src/datamodel.py:32-33 | a failing read fails with the error of its first failing row, after only good rows |
| Dataset.TraverseStops | gigs/src/datamodel.py:32-33 | once a prefix fails, the whole read fails the same way |
| Dataset.NormalizeAllOk | gigs/src/datamodel.py:32-33 | a successful read normalises every row, one gig per row, in order |
| Dataset.NormalizeAllFirstError | gigs/src/datamodel.py:32-33 | a failed read reports the first row that raises |
| Dataset.GigIndex | gigs/src/datamodel.py:29-35 | the table's keys are exactly the gig ids, each storing a gig with that id |
| Dataset.KeyOrder | gigs/src/datamodel.py:29-35 | the iteration order lists each id once, and exactly the ids |
| Dataset.LaterRowWins | gigs/src/datamodel.py:35 | a row whose id does not recur later is the one stored under it |
| Dataset.KeyOrderExtends | gigs/src/datamodel.py:35 | reading more rows only appends to the key order (re-assigning a key keeps its place) |
| Dataset.IndexStep | gigs/src/datamodel.py:35 | storing one more gig overwrites its key and appends the key only when it is new |
| Dataset.IndexRows | gigs/src/datamodel.py:29-35 | the loop builds the index and order of the normalised rows, or stops with the first row's error |
| Dataset.AttachChats | gigs/src/datamodel.py:67-69 | attaching chats keeps the set of gigs |
| Dataset.AttachChatsEffect | gigs/src/datamodel.py:67-69 | a gig with chats gets exactly those chats and nothing else changes; a gig without keeps its own |
| Dataset.RelevantChats | gigs/src/datamodel.py:238-240 | the relevant chats are those keyed by a known gig |
| Dataset.Standardize | gigs/src/datamodel.py:89-93 | fails exactly when there are fewer than two prices (`stdev` raises) or all prices are equal (division by zero), naming which; on success the variance is positive and price `i` becomes its z-score |
| Dataset.VarianceIsPositive | gigs/src/datamodel.py:91-92 | with two or more prices of nonzero spread, the sample variance is positive |
| Dataset.ZeroMean | gigs/src/datamodel.py:90-92 | the deviations from the mean sum to zero |
| Dataset.NoSpreadIffAllEqual | gigs/src/datamodel.py:89-93 | with at least two prices, the spread is zero exactly when all prices are equal |
| Dataset.LabelOf | gigs/src/datamodel.py:216 | a label is 1 or −1 |
| Dataset.VectorsOf | gigs/src/datamodel.py:213-215 | one vector per gig of the order |
| Dataset.LabelsOf | gigs/src/datamodel.py:216 | one label per gig of the order |
| Dataset.PricesOf | gigs/src/datamodel.py:217 | one price per gig of the order |
| Dataset.WithPrices | gigs/src/datamodel.py:219-220 | overwriting prices keeps the number of vectors |
| Dataset.OnlyPriceChanges | gigs/src/datamodel.py:219-220 | only column 0 of each vector changes, and it becomes that gig's standardised price |
| Dataset.FeaturesNonEmpty | gigs/src/datamodel.py:213-215 | every vector has 20 columns |
| Dataset.SplitPartitions | gigs/src/datamodel.py:221-227 | POS holds as many vectors as there are positive labels, and POS and NEG together are a permutation of all vectors |
| Dataset.SplitFollowsLabels | gigs/src/datamodel.py:221-227 | every vector in POS is held by some position labelled 1, every vector in NEG by some position labelled otherwise; `EveryPositionLands` is the converse |
| Dataset.SplitByLabel | gigs/src/datamodel.py:221-227 | every vector lands in exactly one of POS and NEG; `SplitByPositions` says which, and in what order |
| Dataset.LabelledAt | gigs/src/datamodel.py:221-222 | the positions labelled 1 (or not), each exactly once and in increasing order |
| Dataset.SplitByPositions | gigs/src/datamodel.py:221-227 | POS is exactly the vectors at the positions labelled 1, and NEG those at the other positions, each in the original order |
| Dataset.EveryPositionLands | gigs/src/datamodel.py:221-227 | every vector labelled 1 is in POS and every other vector is in NEG |
| Dataset.RowsStayFull | gigs/src/datamodel.py:221-227 | splitting keeps every row at 20 columns |
| Dataset.TableOrderStep | gigs/src/datamodel.py:213-216 | one more key appends its vector and its label |
| Dataset.VectorsAndLabels | gigs/src/datamodel.py:213-216 | the loop over the keys yields the vectors and labels in key order |
| Dataset.OverwritePrices | gigs/src/datamodel.py:219-220 | the price loop yields the vectors with column 0 replaced |
| Dataset.SplitRows | gigs/src/datamodel.py:221-227 | the split loop yields the POS/NEG split |
| Dataset.ComputeFeatured | gigs/src/datamodel.py:209-227 | extraction yields the specified split, or its error, and every row has 20 columns |
| Dataset.ExtractionFails | gigs/src/datamodel.py:209-227 | extraction (`BuildFeatured`) fails exactly when there are fewer than two gigs or all their prices are equal |
| Dataset.DataModel.constructor | gigs/src/datamodel.py:16-19 | a new model holds no gigs, no chats and no cached split |
| Dataset.DataModel.ReadGigs | gigs/src/datamodel.py:28-37 | on success the table and key order are those of the normalised rows; on a failing row, that row's error and the old table; chats and cache untouched |
| Dataset.DataModel.ReadChats | gigs/src/datamodel.py:62-72 | stores the chat file and attaches each gig's chats; order and cache untouched |
| Dataset.DataModel.ReadData | gigs/src/datamodel.py:22-25 | reading gigs then chats, or stopping at the gig error with nothing changed |
| Dataset.DataModel.GetFeaturedGigs | gigs/src/datamodel.py:203-230 | returns the cached split when there is one; otherwise computes, caches and returns it; a failure caches nothing; the gig table is untouched |
| Dataset.DataModel.SaveRelevantChats | gigs/src/datamodel.py:233-247 | stores the chat file and returns its entries whose key is a known gig |
| CrossValidation.Estimator.constructor | gigs/src/ml_utils.py:40 | an estimator holds its parameters and is not fitted |
| CrossValidation.Estimator.Clone | gigs/src/ml_utils.py:40 | `base.clone` is a new unfitted estimator with the same parameters |
| CrossValidation.Estimator.Fit | gigs/src/ml_utils.py:41 | fitting records the training data |
| CrossValidation.At | gigs/src/ml_utils.py:31-36 | `x[index]` with Python's negative indices is the element at the index modulo the length |
| CrossValidation.Gather | gigs/src/ml_utils.py:31-36 | a gathered slice has one element per index |
| CrossValidation.GatherAt | gigs/src/ml_utils.py:31-36 | element `j` of the slice is the sample at index `j`, negative indices counting from the end |
| CrossValidation.GatherInto | gigs/src/ml_utils.py:31-33 | the append loop yields the gathered slice |
| CrossValidation.GatherFold | gigs/src/ml_utils.py:30-36 | the four slices of a fold |
| CrossValidation.Tally | gigs/src/ml_utils.py:43-50 | entry `k` of each list is that metric of outcome `k` |
| CrossValidation.TallyOf | gigs/src/ml_utils.py:43-50 | recording outcomes into empty lists yields one entry per outcome, in order |
| CrossValidation.ExtendConcat | gigs/src/ml_utils.py:29-50 | recording two runs of outcomes equals recording their concatenation |
| CrossValidation.CrossValSpec | gigs/src/ml_utils.py:23-24 | the result has one entry per classifier name |
| CrossValidation.Round | gigs/src/ml_utils.py:37-50 | one fold appends one outcome per classifier carrying the name |
| CrossValidation.History | gigs/src/ml_utils.py:29-50 | the lists under a name have length folds × classifiers with that name |
| CrossValidation.CrossValShape | gigs/src/ml_utils.py:21-51 | keys are the names and every list has that length; a given pair is exactly one fold |
| CrossValidation.PerFold | gigs/src/ml_utils.py:29-50 | one outcome per fold |
| CrossValidation.PerFoldAt | gigs/src/ml_utils.py:29-50 | outcome `k` is that of fold `k` |
| CrossValidation.HistoryOfUnique | gigs/src/ml_utils.py:29-50 | a name carried by one classifier records exactly its per-fold outcomes |
| CrossValidation.RoundOfUnique | gigs/src/ml_utils.py:37-50 | one fold records exactly one outcome for a uniquely named classifier |
| CrossValidation.NoneNamed | gigs/src/ml_utils.py:37-50 | nothing is recorded for a name no classifier carries |
| CrossValidation.ScoreClone | gigs/src/ml_utils.py:39-50 | clone, fit on the training slice, predict and score give the fold's outcome (`Evaluate`) |
| CrossValidation.ApplyRound | gigs/src/ml_utils.py:37-50 | one fold keeps the set of names |
| CrossValidation.ApplyRoundStep | gigs/src/ml_utils.py:37-50 | one more classifier appends each of its four metrics to the end of the matching list under its own name (`Record`) and changes no other entry |
| CrossValidation.RoundStep | gigs/src/ml_utils.py:37-50 | per name, one more classifier appends an outcome exactly when it carries that name |
| CrossValidation.NoFoldsNoScores | gigs/src/ml_utils.py:23-24 | with no folds every name holds four empty lists |
| CrossValidation.CrossValStep | gigs/src/ml_utils.py:29-50 | one more fold applies one round to the result so far |
| CrossValidation.RunRound | gigs/src/ml_utils.py:37-50 | the classifier loop applies one round |
| CrossValidation.KFoldCrossValMulti | gigs/src/ml_utils.py:21-51 | the fold loop yields the per-name metric lists |
| CrossValidation.CrossValReturned | gigs/src/ml_utils.py:16-18 | a lone classifier gets its own lists, holding its score on each fold; otherwise the map keyed by every name, where a name carried once holds that classifier's per-fold scores |
| CrossValidation.KFoldCrossVal | gigs/src/ml_utils.py:10-28 | a single classifier is wrapped in a list (`ListOf`), the folds are the given pair alone or else KFold's (`FoldsOf`), and a one-element result is unwrapped |
| CrossValidation.SingleClassifierScores | gigs/src/ml_utils.py:16-17 | one classifier's result holds, at fold `k`, the four metrics of fold `k` |
| CrossValidation.Truncated | gigs/src/ml_utils.py:80 | each prediction is truncated toward zero |
| CrossValidation.GetPredictionsMulti | gigs/src/ml_utils.py:63-81 | keys are the estimators themselves, each value its clone's truncated predictions |
| CrossValidation.GetPredictions | gigs/src/ml_utils.py:54-60 | one estimator gives its own predictions, otherwise the map |
| Experiments.LabelsFor | gigs/src/experimenter.py:71-75 | one label per row, 1 for POS rows and then −1 for NEG rows |
| Experiments.AssembleSamples | gigs/src/experimenter.py:48-55 | the samples are the POS rows then the NEG rows, with matching labels |
| Experiments.AssembleLabels | gigs/src/experimenter.py:71-75 | the label loop yields one label per row |
| Experiments.Column | gigs/src/experimenter.py:78-79 | one single-value sample per row |
| Experiments.ColumnAt | gigs/src/experimenter.py:78-79 | sample `k` is `[row_k[i]]` |
| Experiments.ColumnOfConcat | gigs/src/experimenter.py:78-79 | the column of POS then NEG is the POS column then the NEG column |
| Experiments.OverwriteLastWins | gigs/src/experimenter.py:81 | the table's keys are the listed names, and a name keeps the value of its last position |
| Experiments.OverwriteStep | gigs/src/experimenter.py:81 | one more assignment updates just that key |
| Experiments.ColumnF1sStep | gigs/src/experimenter.py:76-82 | one more column appends its F1 list |
| Experiments.FeatureTableLastWins | gigs/src/experimenter.py:76-82 | keys are the labels, and a label's value is the F1 list of its last column |
| Experiments.ColumnF1PerFold | gigs/src/experimenter.py:78-81 | column `i`'s F1 list has one entry per fold: the SVM's F1 on that column alone |
| Experiments.FeatureTableStep | gigs/src/experimenter.py:76-82 | one more column sets that label to that column's F1 list |
| Experiments.ColumnScores | gigs/src/experimenter.py:78-81 | cross-validating one column yields its F1 list |
| Experiments.AddColumn | gigs/src/experimenter.py:77-81 | one loop step extends the table by one column |
| Experiments.FillFeatureValues | gigs/src/experimenter.py:76-82 | the column loop yields the feature table |
| Experiments.LabelCount | gigs/src/experimenter.py:69-76 | twenty labels, and every featured row has twenty columns |
| Experiments.FeatureValuesOf | gigs/src/experimenter.py:67-82 | labels, then the column loop over the feature labels |
| Experiments.Experimenter.constructor | gigs/src/experimenter.py:13-15 | the experimenter holds the given data model |
| Experiments.Experimenter.SetDatamodel | gigs/src/experimenter.py:18-20 | replaces the data model |
| Experiments.Experimenter.ClassifyGigs | gigs/src/experimenter.py:43-61 | reuses a cached split; otherwise extracts it, failing with extraction's error or caching its result; cross-validates the classifiers on POS+NEG with labels 1/−1; the gig table is untouched |
| Experiments.Experimenter.EvaluateFeatureValues | gigs/src/experimenter.py:64-87 | reuses a cached split; otherwise extracts it, failing with extraction's error or caching its result; returns, per feature label, the SVM's F1 list on that column alone |

## Left out

- File reading, CSV parsing and `json.load`/`json.loads` are outside the model. The raw row and the chat object arrive as values.
- `datetime.strptime` is outside the model. A date arrives as an instant or as none, when the text does not match the format.
- `float(text)` is outside the model. The price arrives as a real or as none. Exponent and infinity spellings are not modelled.
- Floating-point rounding is not modelled. Ratios, `math.exp`, `stats.mean`, `stats.stdev` and the division by the standard deviation are kept as exact symbolic values.
- scikit-learn is outside the model. `fit`, `predict` and the four metrics are the function parameters `fitPredict` and `score`. Any sklearn errors, such as those raised for an empty fold or a single class, are not modelled.
- `KFold` and its random shuffle are outside the model. They become the parameter `kfold`, which maps a sample count to its folds. The folds are required to index inside the data, as KFold's do.
- Experiments.Experimenter.EvaluateFeatureValues: every column is cross-validated on the same folds `kfold(n)`, and `fitPredict` is deterministic. The source builds a freshly shuffled KFold for each of its twenty calls, and the classifiers may be randomised, so two equal columns need not get equal F1 lists there.
- Experiments.Experimenter.ClassifyGigs: the folds are `kfold(n)`, the same for every call with the same number of samples, and `fitPredict` is deterministic; the source reshuffles on every call and leaves the random forest unseeded.
- `get_classifier_list` and `get_svm` only build sklearn objects. They become the parameters `clfs` and `svm`.
- Experiments.Experimenter.ClassifyGigs: returns the per-fold score lists. It does not return `float_precise_str(means(...))`, because that averaging and string formatting is floating-point output. The printing is also not modelled.
- Experiments.Experimenter.EvaluateFeatureValues: returns the per-fold F1 lists, not their formatted means, for the same reason.
- `process_docs` and `save_plots` only print or draw, so they are not modelled. `save_relevant_chats` is modelled without writing `rel_chats.json`.
- Features.ChatFeaturesOf: does not model that line 152 replaces each timestamp by a `datetime` in place. A successful extraction is cached, so it runs once. After a failed extraction nothing is cached. When some gig has a chat that is not automatic, the source's next extraction would raise TypeError at line 152, while the model computes the same error as before; when every chat is automatic (line 150 skips them), the source too repeats the same error.
- Features.DaysBetween: timestamps are converted to local time in the source, so a daylight-saving shift can move the day count; the model counts whole 86 400 000 ms periods.
- The accumulated chat `text` and the unused `WordNetLemmatizer` do not contribute to any feature, so they are not modelled.
- `int(float(price))` on a non-finite price would raise. Prices are modelled as reals, which are always finite.
- Dataset.DataModel.GetFeaturedGigs, Dataset.DataModel.ReadChats, Dataset.DataModel.SaveRelevantChats: before `read_gigs`, the source has no `gigs` attribute. `get_featured_gigs` then raises AttributeError, and so do `read_chats` (line 68) and `save_relevant_chats` (line 239) as soon as the chat file has an entry. The model starts from an empty table instead, so these run without error.
- A fold index outside the data raises IndexError in the source. It is a precondition here.
- A status, type or subtype missing from a row or document is a KeyError in the source. It is not modelled: every record carries its fields.
- A non-automatic chat without a timestamp, to-client flag or PM id raises KeyError at lines 152-155 of `gigs/src/datamodel.py`, and a chat whose text is null raises TypeError at line 149. Chats are modelled as complete records, so neither error is modelled.
- Dataset.KeyOrder: assumes the insertion-ordered dictionaries of CPython 3.6 and later. On older Pythons the order of the gig table, and so of the rows, is arbitrary.
- The string constants of `gigs/config/strings.py` are written as their own names (for example "PDF" and "SYSTEM"). The sorted order of the labels follows from that. `gigs/config/strings.py` is not part of this model.
- `gen_utils` (`unique`, `means`, `float_precise_str`) is not part of this model. `unique` is modelled as the set of its arguments.
