# Review-rating preprocessing, modelled in Dafny

This project models the label-remapping and text-rendering core of a
preprocessing tool. The tool turns Amazon-style review records into
labelled text-classification datasets.

- `src/process_method.py` defines seven strategies.
  - Each strategy renders the review into one text string.
  - Each strategy also replaces the 1–5 star rating by a target label.
  - The two binary strategies drop out-of-scope records, on the train path only.
  - A string flag selects the strategy.
- `preprocess.py` is an older, self-contained version of the pipeline.
  - It has two renderers that leave the rating alone, and its own two-flag dispatch.
  - It builds records named `index_0, index_1, …`.
  - Test records always get rating -1.
  - It shuffles the train records and cuts them into validation and train.

The model is functional. A record is an immutable `Data` value. Each
`process_*` step returns an updated copy instead of mutating its argument.
`list(map(…))` and `list(filter(…))` are `Lists.Map` and `Lists.Filter`.

Modules, one per source component:

| module | file | models |
|---|---|---|
| `Results` | results.dfy | `Option` (missing key, failed decode) and `Result` (`ValueError`) |
| `Decimal` | decimal.dfy | Python `str()` of an integer, and a parser that inverts it |
| `Scan` | scan.dfy | small decoding steps used by the renderers' decoders |
| `Records` | records.dfy | the `Data` record of `src/data.py` and of `preprocess.py` |
| `Labels` | labels.dfy | the rating → label rules: subtract one, and the three lookup tables |
| `Render` | render.dfy | the `[SEP]` template and the "merge all features" sentence, with decoders |
| `Lists` | lists.dfy | `map` and `filter` on lists |
| `ProcessMethod` | process_method.dfy | the seven strategies, their dataset functions, and the flag dispatch |
| `Preprocess` | preprocess.dfy | the older renderers, dispatch, record construction, split, and `main` |

Modelling choices:

- **Test rating in `src/`.** The lookup tables key the test case on rating 0.
  So the `src` strategies take a test record to carry rating 0
  (`ProcessMethod.TestRating`). Every strategy maps 0 to -1. The comment on
  the record type says -1 instead; see "Findings".
- **Dictionary lookups.** A lookup with a missing key raises `KeyError`. In the
  model this is the precondition `Labels.Defined`. It holds exactly for
  ratings 0..5 (`Labels.TableDomain`). The subtract-one strategies accept any
  integer, as the Python code does.
- **Cleaning.** `text_preprocessing_pipeline` (src/clean.py) is not part of
  this model. It is the parameter `clean: string -> string`, and nothing is
  assumed about it.
- **Renderer partners.** Each template has a decoder. Given the lengths of
  the free-text fields, the decoder reads every field back from the rendered
  string. The round-trip lemmas therefore show three things: each field
  appears whole, in template order, and the purchase flag and vote count can
  be recovered.
- **JSON rating.** The train file's rating is a real number. `int()` is
  modelled as truncation toward zero.
- **Shuffle and ratio.** `random.shuffle` is a permutation of positions
  passed in as a parameter. The float ratio becomes either an integer cut
  point `k` (for `Split`, with Python's slice rules for any `k`) or an exact
  real (for `ValidationSize`).

Two facts about the code that the model makes explicit:

- Every strategy maps the test rating 0 to -1
  (src/process_method.py:33, 52, 71, 99, 127, 159, 186), as
  `ProcessMethod.TestRatingBecomesNoLabel` states.
- The dataset functions keep input order (`ProcessMethod.DatasetsConcat`).

## Model

| member | source | states |
|---|---|---|
| Decimal.NatToString | preprocess.py:110 | `str(n)` of a natural is a non-empty digit string, with a leading `0` only for zero |
| Decimal.IntToString | src/process_method.py:155 | `str(i)` is a non-empty numeral that starts with `-` exactly when `i` is negative, followed by digits with no leading zero (a lone `0` only for zero) |
| Decimal.NatToStringRoundTrip | preprocess.py:110 | reading the digits of `str(n)` gives back `n` |
| Decimal.IntToStringRoundTrip | src/process_method.py:155 | parsing `str(i)` gives back `i`, for every integer |
| Decimal.IntToStringInjective | src/process_method.py:155 | two integers render to the same string exactly when they are equal |
| Labels.Transform | src/process_method.py:69-134 | the exact label tables: 0 always gives -1; subtract-one is undone by adding one; 12-star keeps exactly 1,2 as 0,1; 45-star keeps exactly 4,5 as 0,1; the ternary table sends 1,2 / 3 / 4,5 to 0 / 1 / 2 and only 0 to -1 |
| Labels.TableDomain | src/process_method.py:69-78 | a table lookup succeeds (no `KeyError`) exactly for ratings 0..5 |
| Labels.LabelClosure | src/process_method.py:69-134 | a 1..5 rating gets a class below the rule's class count, or -1, and only the two binary rules give -1 |
| Labels.BinaryRefinesFiveClass | src/process_method.py:69-106 | the binary rules keep the five-class label of the stars they keep, shifted by 0 or by 3 |
| Labels.GroupMonotone | src/process_method.py:125-134 | the ternary grouping never reverses the order of two ratings |
| Render.TitleSepText | src/process_method.py:32 | the title/text rendering starts with the title, then ` [SEP] `, then the text, and its length is the sum of the parts |
| Render.TitleSepTextRoundTrip | src/process_method.py:32 | given the title's length, the title and the text are recovered exactly from the rendering |
| Render.MergeAllFeatures | src/process_method.py:153-158 | the sentence starts with `This Review Title is {title}` (lower case with a colon in the cleaned variant) and ends with ` people think this review is helpful.` |
| Render.MergeAllFeaturesRoundTrip | src/process_method.py:153-158 | given the title and text lengths, the title, text, helpful-vote count and purchase flag are all recovered from the sentence, in both phrasings |
| Render.PurchaseClauseIff | src/process_method.py:156 | at the clause position the sentence says "… did purchase it" exactly when the purchase is verified, and "… did not purchase it" exactly when it is not |
| Lists.Map | src/process_method.py:41-45 | `list(map(f, s))` has the length of `s`, and element `i` is `f(s[i])` |
| Lists.Filter | src/process_method.py:90-91 | `list(filter(p, s))` is no longer than `s`, holds only elements of `s` satisfying `p`, and holds every such element |
| Lists.MapConcat | src/process_method.py:41-45 | mapping a concatenation is the concatenation of the maps |
| Lists.FilterConcat | src/process_method.py:90-91 | filtering a concatenation is the concatenation of the filtered parts, so the survivors stay in order |
| Lists.FilterSingleton | src/process_method.py:90-91 | on one element the filter keeps it exactly when it matches |
| Lists.FilterKeepsAll | src/process_method.py:90-91 | a filter that matches everything returns its input unchanged |
| Lists.FilterKeepsNone | src/process_method.py:90-91 | a filter that matches nothing returns the empty list |
| Lists.FilterLengthUnchanged | src/process_method.py:90-91 | the filter keeps the length exactly when every element matches |
| ProcessMethod.Process | src/process_method.py:30-204 | `process_train`/`process_test` leave index, title, text, helpful vote and purchase flag unchanged, always set the processed text, replace the rating by the strategy's label rule (`Labels.Transform`), and turn the test rating 0 into -1 |
| ProcessMethod.ProcessedTextDecodes | src/process_method.py:30-204 | every strategy's processed text decodes back to the raw fields, or to the cleaned ones for the clean strategies, with its own template |
| ProcessMethod.ProcessLabelClosure | src/process_method.py:68-150 | a 1..5 star record gets a label in the strategy's class range, or -1 only under a filtering strategy |
| ProcessMethod.RawStrategiesIgnoreCleaner | src/process_method.py:30-45 | strategies that do not clean give the same result whatever cleaner is supplied |
| ProcessMethod.TestRatingBecomesNoLabel | src/process_method.py:30-150 | every strategy accepts the test rating 0 and labels it -1 |
| ProcessMethod.MinusOneSentinelAsWritten | src/data.py:6 | with -1 as the test rating, the subtract-one strategies produce -2 and the table strategies raise `KeyError` |
| ProcessMethod.TrainDataset | src/process_method.py:41-204 | the train dataset is never longer than its input; it has the same length for the non-filtering strategies; under the binary strategies every survivor's label is 0 or 1 |
| ProcessMethod.TestDataset | src/process_method.py:44-204 | the test dataset has one record per input record, in order, describing the same review, and test records are labelled -1 |
| ProcessMethod.DatasetElements | src/process_method.py:41-204 | element `i` of a map path (every test dataset, and the train dataset of the non-filtering strategies) is the processed input `i` |
| ProcessMethod.FilteredTrainElements | src/process_method.py:90-119 | the binary strategies' train dataset holds every processed record whose label is not -1, and nothing but processed inputs |
| ProcessMethod.DatasetsConcat | src/process_method.py:41-204 | processing two shards and concatenating equals processing the whole collection, for train and for test |
| ProcessMethod.TrainDatasetSingleton | src/process_method.py:90-91 | on one record the filtering train path keeps its processed form exactly when the new label is not -1 |
| ProcessMethod.TrainDatasetKeepsAll | src/process_method.py:90-91 | the train path keeps its length exactly when no record is labelled -1 under a filtering strategy |
| ProcessMethod.TrainShrinksTestPreserves | src/process_method.py:90-94 | the train path may shrink a collection and the test path never does; a filtering strategy's train path keeps nothing of a collection of test records |
| ProcessMethod.TrainLabelsInRange | src/process_method.py:68-150 | from 1..5 star records, every train label lies in the strategy's class range |
| ProcessMethod.GetProcessedMethod | src/process_method.py:206-221 | a flag is accepted exactly when it is one of the seven listed flags; the chosen strategy is the one with that flag; any other string gives the `ValueError` message |
| ProcessMethod.DispatchRoundTrip | src/process_method.py:206-221 | each strategy's flag selects that strategy |
| ProcessMethod.FlagNamesStrategy | src/process_method.py:5-11 | a strategy's flag starts with `clean_` exactly when the strategy cleans its text |
| ProcessMethod.ChoiceFlags | src/process_method.py:223-232 | `get_choise_flag` lists seven distinct flags, one for every strategy |
| ProcessMethod.ChoiceFlagsComplete | src/process_method.py:223-232 | every flag `get_choise_flag` lists is accepted by `get_processed_method` |
| Preprocess.TitleAndContent | preprocess.py:39 | the rendering starts with `Review Title: ` and its length is the sum of its parts |
| Preprocess.MergedFeatures | preprocess.py:48-52 | the merged rendering starts with the helpful-vote part, `How many people think this review is helpful: {helpful_vote};` |
| Preprocess.TitleAndContentRoundTrip | preprocess.py:37-44 | given the title's length, title and content are recovered exactly |
| Preprocess.MergedFeaturesRoundTrip | preprocess.py:46-61 | given the title's length, vote count, Yes/No purchase flag, title and content are recovered exactly |
| Preprocess.MergedEndsWithTitleAndContent | preprocess.py:52 | the merged rendering ends with the title-and-content rendering |
| Preprocess.Process | preprocess.py:37-61 | the older `process_train`/`process_test` set the processed text and change neither the rating nor any other field |
| Preprocess.ProcessedTextDecodes | preprocess.py:37-61 | each older strategy's processed text decodes back to the record's fields |
| Preprocess.GetProcessedMethod | preprocess.py:63-68 | exactly the two flags are accepted, each selecting its strategy; anything else gives the `ValueError` message |
| Preprocess.DispatchRoundTrip | preprocess.py:63-68 | each older strategy's flag selects that strategy |
| Preprocess.TruncateToInt | preprocess.py:111 | `int()` of a number truncates toward zero: the result is within one of the input, on the input's side of zero |
| Preprocess.IndexName | preprocess.py:110 | `index_{index}` is the prefix `index_` followed by a digit string whose value is `index` and that has no leading zero |
| Preprocess.IndexNameInjective | preprocess.py:110 | `index_i` and `index_j` are equal exactly when `i == j` |
| Preprocess.BuildTrainRecords | preprocess.py:108-117 | one record per input, record `i` named `index_i`, the rating truncated from the file, no processed text, all indices distinct |
| Preprocess.BuildTestRecords | preprocess.py:131-140 | one record per input, record `i` named `index_i`, rating -1 whatever the file says, all indices distinct |
| Preprocess.SliceBound | preprocess.py:123-124 | the cut point of `l[:k]` lies within the list |
| Preprocess.Split | preprocess.py:122-124 | validation followed by train is the whole list, and validation has the slice-rule length |
| Preprocess.SplitSizes | preprocess.py:123-124 | the split sizes for `k` in range, `k` past the end, and negative `k` |
| Preprocess.ValidationSize | preprocess.py:122 | `int(len * ratio)`: the product truncated toward zero, which for a ratio in [0, 1] lies between 0 and the list length |
| Preprocess.Shuffle | preprocess.py:121 | the shuffled list is a permutation of the input: same length and the same multiset of elements |
| Preprocess.ShuffledIndices | preprocess.py:119-121 | after the shuffle, every input position's index appears, and no index appears twice |
| Preprocess.ProcessAndShuffle | preprocess.py:119-121 | the shuffled list holds processed record `perm[i]` at position `i` |
| Preprocess.Run | preprocess.py:101-143 | an unknown flag fails before any record is built; otherwise validation ++ train are the shuffled processed train records, each index exactly once, validation has the slice length, and the test output has one processed record per input, each rated -1 |

## Left out

- `text_preprocessing_pipeline` (src/clean.py) is not part of this model. It is passed in as `clean`. The model makes no claim about it, such as idempotence.
- File I/O is left out, because it is only reading and writing files: `read_train_json`, `read_test_json`, `overwrite_folder` (which shells out `rm -rf`), `write_csv` (src/utils.py:10-39, preprocess.py:70-99).
- `set_seed` and the global random state are left out. The shuffle is a permutation given as a parameter.
- Float arithmetic in `len * train_valid_ratio` is left out. The model uses exact reals or an integer cut point, so rounding of the float product is not modelled.
- JSON parsing is left out, including a missing field's `KeyError`. Fields arrive already typed: strings for title and text, an integer vote count, a boolean flag, a real rating.
- The `src/` pipeline's own record construction is not among the modelled files. Test records there are taken to carry rating 0.
- Records are mutated in place in the source. This is modelled as returning a new value, so aliasing between the input list and the output list is left out.
- `Data.__str__`, `analyze.py` (tokenizer, plotting, float statistics), `create_datasets.py` (dataset-hub upload) and every `argparse` block are left out: they are presentation, external services or command-line glue.
- Preprocess.SliceBound: its contract only bounds the cut point. The case-by-case values are stated in `Preprocess.SplitSizes`.

## Findings

| source | as written | input that shows it | evidently intended | confidence | as-written member | corrected member |
|---|---|---|---|---|---|---|
| src/data.py:6 | the record type documents -1 as the test rating, but the lookup tables key the test case on 0 (src/process_method.py:71, 99, 127) | a test record with rating -1: `Only12StarOnlyTitleAndText` raises `KeyError`, and `OnlyTitleAndText` writes label -2 | test records carry rating 0, which every strategy labels -1 | low, not executed; the code that builds `src/` test records is not part of this model | ProcessMethod.MinusOneSentinelAsWritten | ProcessMethod.TestRatingBecomesNoLabel |
