/** The seven processing strategies of `src/process_method.py`. Each pairs a
    template from `Render` with a rule from `Labels`; `process_train` and
    `process_test` have identical bodies in every strategy, so both are
    `Process` here. The dataset functions map `Process` over a list, and the
    two binary strategies additionally drop, on the train path only, every
    record whose new rating is -1.

    The test sentinel of this pipeline is rating 0: the lookup tables key the
    test case on 0, and 0 - 1 gives the same -1 in the subtract-one
    strategies. */
module ProcessMethod {
  import opened Results
  import opened Records
  import opened Labels
  import opened Render
  import Lists

  datatype Method =
    | OnlyTitleAndText
    | CleanOnlyTitleAndText
    | MergeAllFeatureToText
    | CleanMergeAllFeatureToText
    | Only12StarOnlyTitleAndText
    | Only45StarOnlyTitleAndText
    | Group12And45OnlyTitleAndText

  /** The rating of a test record in this pipeline. */
  const TestRating: int := 0

  function Rule(m: Method): LabelRule {
    match m
    case Only12StarOnlyTitleAndText => Only12Star
    case Only45StarOnlyTitleAndText => Only45Star
    case Group12And45OnlyTitleAndText => Group12And45
    case _ => SubtractOne
  }

  /** The strategy passes title and text through the cleaning pipeline. */
  predicate Cleans(m: Method) {
    m.CleanOnlyTitleAndText? || m.CleanMergeAllFeatureToText?
  }

  /** The strategy's `process_train_dataset` filters out label -1. */
  predicate FiltersTrain(m: Method) {
    m.Only12StarOnlyTitleAndText? || m.Only45StarOnlyTitleAndText?
  }

  /** The fields the template is filled with: title and text cleaned by
      `clean` (which stands for `text_preprocessing_pipeline`) when the
      strategy cleans, the raw fields otherwise. */
  function TemplateFields(m: Method, clean: string -> string, d: Data): Features {
    if Cleans(m) then Features(clean(d.title), clean(d.text), d.helpfulVote, d.verifiedPurchase)
    else Features(d.title, d.text, d.helpfulVote, d.verifiedPurchase)
  }

  function RenderText(m: Method, clean: string -> string, d: Data): string {
    var f := TemplateFields(m, clean, d);
    if m.MergeAllFeatureToText? then MergeAllFeatures(Plain, f)
    else if m.CleanMergeAllFeatureToText? then MergeAllFeatures(Lowered, f)
    else TitleSepText(f.title, f.text)
  }

  /** The strategy's lookup does not raise `KeyError` on `rating`. */
  predicate Accepts(m: Method, rating: int) {
    Defined(Rule(m), rating)
  }

  predicate AllAccepted(m: Method, data: seq<Data>) {
    forall i :: 0 <= i < |data| ==> Accepts(m, data[i].rating)
  }

  /** `process_train` / `process_test`: sets the processed text and
      replaces the rating by the strategy's label. */
  function Process(m: Method, clean: string -> string, d: Data): (r: Data)
    requires Accepts(m, d.rating)
    ensures SameReview(d, r)
    ensures r.processedText.Some?
    ensures r.rating == Transform(Rule(m), d.rating)
    ensures d.rating == TestRating ==> r.rating == NoLabel
  {
    d.(processedText := Some(RenderText(m, clean, d)), rating := Transform(Rule(m), d.rating))
  }

  /** `self.process_train` as a value, for `map`. */
  function Step(m: Method, clean: string -> string): Data --> Data {
    (d: Data) requires Accepts(m, d.rating) => Process(m, clean, d)
  }

  /** The lambda of the filtering `process_train_dataset`: `x.rating != -1`. */
  predicate Labelled(d: Data) {
    d.rating != NoLabel
  }

  /** `process_train_dataset`: a map, followed for the binary strategies by
      the filter that drops label -1. */
  function TrainDataset(m: Method, clean: string -> string, data: seq<Data>): (r: seq<Data>)
    requires AllAccepted(m, data)
    ensures |r| <= |data|
    ensures !FiltersTrain(m) ==> |r| == |data|
    ensures FiltersTrain(m) ==> forall k :: 0 <= k < |r| ==> 0 <= r[k].rating <= 1
  {
    var mapped := Lists.Map(Step(m, clean), data);
    if FiltersTrain(m) then
      assert forall i :: 0 <= i < |mapped| ==> mapped[i].rating == NoLabel || 0 <= mapped[i].rating <= 1;
      Lists.Filter(Labelled, mapped)
    else mapped
  }

  /** `process_test_dataset`: a map for every strategy; it never drops a
      record. */
  function TestDataset(m: Method, clean: string -> string, data: seq<Data>): (r: seq<Data>)
    requires AllAccepted(m, data)
    ensures |r| == |data|
    ensures forall i :: 0 <= i < |data| ==> SameReview(data[i], r[i])
    ensures forall i :: 0 <= i < |data| && data[i].rating == TestRating ==> r[i].rating == NoLabel
  {
    Lists.Map(Step(m, clean), data)
  }

  // ---------------------------------------------------------------------
  // Properties of a single record

  /** The processed text holds the template fields whole and in template
      order: given the lengths of title and text, a decoder reads every
      field back. */
  lemma ProcessedTextDecodes(m: Method, clean: string -> string, d: Data)
    requires Accepts(m, d.rating)
    ensures var t := Process(m, clean, d).processedText.value;
      var f := TemplateFields(m, clean, d);
      if m.MergeAllFeatureToText? then ParseMergeAllFeatures(Plain, t, |f.title|, |f.text|) == Some(f)
      else if m.CleanMergeAllFeatureToText? then ParseMergeAllFeatures(Lowered, t, |f.title|, |f.text|) == Some(f)
      else ParseTitleSepText(t, |f.title|) == Some((f.title, f.text))
  {
    var f := TemplateFields(m, clean, d);
    if m.MergeAllFeatureToText? {
      MergeAllFeaturesRoundTrip(Plain, f);
    } else if m.CleanMergeAllFeatureToText? {
      MergeAllFeaturesRoundTrip(Lowered, f);
    } else {
      TitleSepTextRoundTrip(f.title, f.text);
    }
  }

  /** A 1..5 star record gets a label of the strategy's class range, or -1
      under a filtering strategy only. */
  lemma ProcessLabelClosure(m: Method, clean: string -> string, d: Data)
    requires 1 <= d.rating <= 5
    ensures Accepts(m, d.rating)
    ensures var cls := Process(m, clean, d).rating;
      (0 <= cls < NumClasses(Rule(m))) || (cls == NoLabel && FiltersTrain(m))
  {
    LabelClosure(Rule(m), d.rating);
  }

  /** Strategies that do not clean never consult the cleaner. */
  lemma RawStrategiesIgnoreCleaner(m: Method, clean1: string -> string, clean2: string -> string, d: Data)
    requires !Cleans(m) && Accepts(m, d.rating)
    ensures Process(m, clean1, d) == Process(m, clean2, d)
  {
  }

  /** The test sentinel of this pipeline, rating 0, is accepted by every
      strategy and becomes -1 under each: 0 - 1 in the subtract-one
      strategies, the key-0 entry in the table ones. */
  lemma TestRatingBecomesNoLabel(m: Method)
    ensures Accepts(m, TestRating)
    ensures Transform(Rule(m), TestRating) == NoLabel
  {
  }

  /** A test record carrying -1, the sentinel the comment on the record
      type documents: the subtract-one strategies turn it into -2, which is
      neither a class nor the -1 marker, and the table strategies have no
      key for it, so their lookup raises `KeyError`. */
  lemma MinusOneSentinelAsWritten(m: Method)
    ensures Rule(m).SubtractOne? ==> Accepts(m, -1) && Transform(Rule(m), -1) == -2
    ensures !Rule(m).SubtractOne? ==> !Accepts(m, -1)
  {
  }

  // ---------------------------------------------------------------------
  // Properties of the dataset functions

  /** Element `i` of either dataset function's map is the processed
      record `i`. */
  lemma DatasetElements(m: Method, clean: string -> string, data: seq<Data>)
    requires AllAccepted(m, data)
    ensures !FiltersTrain(m) ==> forall i :: 0 <= i < |data| ==>
      TrainDataset(m, clean, data)[i] == Process(m, clean, data[i])
    ensures forall i :: 0 <= i < |data| ==> TestDataset(m, clean, data)[i] == Process(m, clean, data[i])
  {
    var mapped := Lists.Map(Step(m, clean), data);
    assert forall i :: 0 <= i < |data| ==> mapped[i] == Process(m, clean, data[i]);
  }

  /** Under the binary strategies the train dataset holds exactly the
      processed records whose label is not -1. */
  lemma FilteredTrainElements(m: Method, clean: string -> string, data: seq<Data>)
    requires AllAccepted(m, data) && FiltersTrain(m)
    ensures forall i :: 0 <= i < |data| && Labelled(Process(m, clean, data[i])) ==>
      Process(m, clean, data[i]) in TrainDataset(m, clean, data)
    ensures forall k :: 0 <= k < |TrainDataset(m, clean, data)| ==>
      exists i :: 0 <= i < |data| && TrainDataset(m, clean, data)[k] == Process(m, clean, data[i])
  {
    var mapped := Lists.Map(Step(m, clean), data);
    assert forall i :: 0 <= i < |data| ==> mapped[i] == Process(m, clean, data[i]);
    var r := Lists.Filter(Labelled, mapped);
    assert r == TrainDataset(m, clean, data);
    forall k | 0 <= k < |r|
      ensures exists i :: 0 <= i < |data| && r[k] == Process(m, clean, data[i])
    {
      var i :| 0 <= i < |mapped| && mapped[i] == r[k];
    }
  }

  /** Processing a collection in two shards and concatenating gives the
      same datasets as processing it whole, so the survivors of the train
      filter stay in input order. */
  lemma DatasetsConcat(m: Method, clean: string -> string, a: seq<Data>, b: seq<Data>)
    requires AllAccepted(m, a) && AllAccepted(m, b)
    ensures AllAccepted(m, a + b)
    ensures TrainDataset(m, clean, a + b) == TrainDataset(m, clean, a) + TrainDataset(m, clean, b)
    ensures TestDataset(m, clean, a + b) == TestDataset(m, clean, a) + TestDataset(m, clean, b)
  {
    forall i | 0 <= i < |a + b|
      ensures Accepts(m, (a + b)[i].rating)
    {
      if i < |a| {
        assert (a + b)[i] == a[i];
      } else {
        assert (a + b)[i] == b[i - |a|];
      }
    }
    var f := Step(m, clean);
    Lists.MapConcat(f, a, b);
    Lists.FilterConcat(Labelled, Lists.Map(f, a), Lists.Map(f, b));
  }

  /** On a single record the filtering train path keeps the processed
      record exactly when its label is not -1. */
  lemma TrainDatasetSingleton(m: Method, clean: string -> string, d: Data)
    requires FiltersTrain(m) && Accepts(m, d.rating)
    ensures TrainDataset(m, clean, [d]) ==
      if Labelled(Process(m, clean, d)) then [Process(m, clean, d)] else []
  {
    var mapped := Lists.Map(Step(m, clean), [d]);
    assert mapped == [Process(m, clean, d)];
    Lists.FilterSingleton(Labelled, Process(m, clean, d));
  }

  /** The train path returns every record exactly when none is labelled -1;
      otherwise it is strictly shorter than its input. */
  lemma TrainDatasetKeepsAll(m: Method, clean: string -> string, data: seq<Data>)
    requires AllAccepted(m, data)
    ensures |TrainDataset(m, clean, data)| == |data| <==>
      forall i :: 0 <= i < |data| ==> !FiltersTrain(m) || Labelled(Process(m, clean, data[i]))
  {
    var mapped := Lists.Map(Step(m, clean), data);
    Lists.FilterLengthUnchanged(Labelled, mapped);
  }

  /** Train and test paths on the same collection: the train path may
      shrink it, the test path keeps every record, and on a collection of
      test records a filtering strategy's train path keeps nothing. */
  lemma TrainShrinksTestPreserves(m: Method, clean: string -> string, data: seq<Data>)
    requires AllAccepted(m, data)
    ensures |TrainDataset(m, clean, data)| <= |data| == |TestDataset(m, clean, data)|
    ensures FiltersTrain(m) && (forall i :: 0 <= i < |data| ==> data[i].rating == TestRating) ==>
      TrainDataset(m, clean, data) == []
  {
    if FiltersTrain(m) && (forall i :: 0 <= i < |data| ==> data[i].rating == TestRating) {
      var mapped := Lists.Map(Step(m, clean), data);
      assert forall i :: 0 <= i < |mapped| ==> !Labelled(mapped[i]);
      Lists.FilterKeepsNone(Labelled, mapped);
    }
  }

  /** On 1..5 star records every train label lies in the strategy's class
      range: the filtering strategies drop the rest, the others have none. */
  lemma TrainLabelsInRange(m: Method, clean: string -> string, data: seq<Data>)
    requires forall i :: 0 <= i < |data| ==> 1 <= data[i].rating <= 5
    ensures AllAccepted(m, data)
    ensures var r := TrainDataset(m, clean, data);
      forall k :: 0 <= k < |r| ==> 0 <= r[k].rating < NumClasses(Rule(m))
  {
    forall i | 0 <= i < |data| {
      ProcessLabelClosure(m, clean, data[i]);
    }
    var r := TrainDataset(m, clean, data);
    DatasetElements(m, clean, data);
    forall k | 0 <= k < |r|
      ensures 0 <= r[k].rating < NumClasses(Rule(m))
    {
      if FiltersTrain(m) {
        FilteredTrainElements(m, clean, data);
        var i :| 0 <= i < |data| && r[k] == Process(m, clean, data[i]);
        ProcessLabelClosure(m, clean, data[i]);
      } else {
        ProcessLabelClosure(m, clean, data[k]);
      }
    }
  }

  // ---------------------------------------------------------------------
  // Dispatch by flag

  function Flag(m: Method): string {
    match m
    case OnlyTitleAndText => "only_title_and_text"
    case CleanOnlyTitleAndText => "clean_only_title_and_text"
    case MergeAllFeatureToText => "merge_all_feature_to_text"
    case CleanMergeAllFeatureToText => "clean_merge_all_feature_to_text"
    case Only12StarOnlyTitleAndText => "only_12_star_only_title_and_text"
    case Only45StarOnlyTitleAndText => "only_45_star_only_title_and_text"
    case Group12And45OnlyTitleAndText => "group_12_and_45_only_title_and_text"
  }

  /** A flag starts with `clean_` exactly when its strategy cleans the
      text. */
  lemma FlagNamesStrategy(m: Method)
    ensures Cleans(m) <==> "clean_" <= Flag(m)
  {
    if Cleans(m) {
      assert Flag(m)[..|"clean_"|] == "clean_";
    } else {
      assert Flag(m)[0] != "clean_"[0];
    }
  }

  /** `get_choise_flag`, in its order: one distinct flag per strategy. */
  function ChoiceFlags(): (r: seq<string>)
    ensures |r| == 7
    ensures forall i, j :: 0 <= i < j < |r| ==> r[i] != r[j]
    ensures forall m: Method :: Flag(m) in r
  {
    [ Flag(OnlyTitleAndText),
      Flag(MergeAllFeatureToText),
      Flag(CleanOnlyTitleAndText),
      Flag(CleanMergeAllFeatureToText),
      Flag(Only12StarOnlyTitleAndText),
      Flag(Only45StarOnlyTitleAndText),
      Flag(Group12And45OnlyTitleAndText) ]
  }

  /** `get_processed_method`: the strategy whose flag equals `flag`, or the
      `ValueError` it raises for any other string. */
  function GetProcessedMethod(flag: string): (r: Result<Method>)
    ensures r.Ok? <==> flag in ChoiceFlags()
    ensures r.Ok? ==> Flag(r.value) == flag
    ensures r.Err? ==> r.message == "Invalid processed method flag: " + flag
  {
    if flag == Flag(OnlyTitleAndText) then Ok(OnlyTitleAndText)
    else if flag == Flag(MergeAllFeatureToText) then Ok(MergeAllFeatureToText)
    else if flag == Flag(CleanOnlyTitleAndText) then Ok(CleanOnlyTitleAndText)
    else if flag == Flag(CleanMergeAllFeatureToText) then Ok(CleanMergeAllFeatureToText)
    else if flag == Flag(Only12StarOnlyTitleAndText) then Ok(Only12StarOnlyTitleAndText)
    else if flag == Flag(Only45StarOnlyTitleAndText) then Ok(Only45StarOnlyTitleAndText)
    else if flag == Flag(Group12And45OnlyTitleAndText) then Ok(Group12And45OnlyTitleAndText)
    else Err("Invalid processed method flag: " + flag)
  }

  /** Every strategy's flag selects that strategy. */
  lemma DispatchRoundTrip(m: Method)
    ensures GetProcessedMethod(Flag(m)) == Ok(m)
  {
  }

  /** `get_choise_flag` lists seven distinct flags, one per strategy, and
      each is accepted by `get_processed_method`. */
  lemma ChoiceFlagsComplete()
    ensures forall f :: f in ChoiceFlags() ==> GetProcessedMethod(f).Ok?
  {
  }
}
