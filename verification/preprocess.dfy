/** The older pipeline of `preprocess.py`: two renderers that leave the
    rating alone, a two-flag dispatch, the loops that build records with
    sequential `index_<i>` names, and the shuffled train/validation split.
    File reading and writing are left out; the shuffle is a permutation
    given as a parameter. */
module Preprocess {
  import opened Results
  import opened Decimal
  import opened Scan
  import opened Records
  import opened Render
  import Lists

  datatype LegacyMethod = OnlyTitleAndText | MergeAllFeatureToText

  /** Rating of every test record this pipeline builds. */
  const TestRating: int := -1

  // ---------------------------------------------------------------------
  // Templates

  const TitleTag: string := "Review Title: "
  const ContentSep: string := ";Review Content: "
  const VoteTag: string := "How many people think this review is helpful: "
  const VerifiedTag: string := "Verified Purchase: "

  /** `f'Review Title: {title};Review Content: {text}'`. */
  function TitleAndContent(title: string, text: string): (r: string)
    ensures TitleTag <= r
    ensures |r| == |TitleTag| + |title| + |ContentSep| + |text|
  {
    TitleTag + (title + (ContentSep + text))
  }

  function VerifiedWord(verified: bool): string {
    if verified then "Yes" else "No"
  }

  /** `f'{helpful_vote_part};{verified_purchase_part};{title_part};{text_part}'`;
      its last two parts are exactly the `OnlyTitleAndText` rendering. */
  function MergedFeatures(f: Features): (r: string)
    ensures VoteTag + (IntToString(f.helpfulVote) + ";") <= r
  {
    PrefixOfThreePieces(VoteTag, IntToString(f.helpfulVote), ";", VerifiedTag
      + (VerifiedWord(f.verifiedPurchase) + (";" + TitleAndContent(f.title, f.text))));
    VoteTag + (IntToString(f.helpfulVote) + (";" + (VerifiedTag + (VerifiedWord(f.verifiedPurchase)
      + (";" + TitleAndContent(f.title, f.text))))))
  }

  function ParseTitleAndContent(r: string, titleLen: nat): Option<(string, string)> {
    var afterTag :- Lit(r, TitleTag);
    var title :- Take(afterTag, titleLen);
    var text :- Lit(title.1, ContentSep);
    Some((title.0, text))
  }

  function ParseVerifiedWord(s: string): Option<(bool, string)> {
    match Lit(s, VerifiedWord(true))
    case Some(rest) => Some((true, rest))
    case None =>
      match Lit(s, VerifiedWord(false))
      case Some(rest) => Some((false, rest))
      case None => None
  }

  function ParseMergedFeatures(r: string, titleLen: nat): Option<Features> {
    var afterTag :- Lit(r, VoteTag);
    var numeral := SpanNumeral(afterTag);
    var votes :- ParseInt(numeral.0);
    var afterVotes :- Lit(numeral.1, ";" + VerifiedTag);
    var verified :- ParseVerifiedWord(afterVotes);
    var afterVerified :- Lit(verified.1, ";");
    var fields :- ParseTitleAndContent(afterVerified, titleLen);
    Some(Features(fields.0, fields.1, votes, verified.0))
  }

  lemma TitleAndContentRoundTrip(title: string, text: string)
    ensures ParseTitleAndContent(TitleAndContent(title, text), |title|) == Some((title, text))
  {
    LitOfConcat(TitleTag, title + (ContentSep + text));
    TakeOfConcat(title, ContentSep + text);
    LitOfConcat(ContentSep, text);
  }

  lemma ParseVerifiedWordOfConcat(verified: bool, rest: string)
    ensures ParseVerifiedWord(VerifiedWord(verified) + rest) == Some((verified, rest))
  {
    LitOfConcat(VerifiedWord(verified), rest);
    if !verified {
      assert (VerifiedWord(false) + rest)[0] == 'N';
    }
  }

  lemma MergedFeaturesRoundTrip(f: Features)
    ensures ParseMergedFeatures(MergedFeatures(f), |f.title|) == Some(f)
  {
    var numeral := IntToString(f.helpfulVote);
    var tail := TitleAndContent(f.title, f.text);
    var afterVotes := VerifiedWord(f.verifiedPurchase) + (";" + tail);
    var afterTag := numeral + (";" + (VerifiedTag + afterVotes));
    LitOfConcat(VoteTag, afterTag);
    assert !IsNumeralChar((";" + (VerifiedTag + afterVotes))[0]);
    SpanNumeralOfConcat(numeral, ";" + (VerifiedTag + afterVotes));
    IntToStringRoundTrip(f.helpfulVote);
    ConcatAssoc(";", VerifiedTag, afterVotes);
    LitOfConcat(";" + VerifiedTag, afterVotes);
    ParseVerifiedWordOfConcat(f.verifiedPurchase, ";" + tail);
    LitOfConcat(";", tail);
    TitleAndContentRoundTrip(f.title, f.text);
  }

  /** The merged rendering ends with the title-and-content rendering. */
  lemma MergedEndsWithTitleAndContent(f: Features)
    ensures EndsWith(MergedFeatures(f), TitleAndContent(f.title, f.text))
  {
    LastOfSevenPieces(VoteTag, IntToString(f.helpfulVote), ";", VerifiedTag,
      VerifiedWord(f.verifiedPurchase), ";", TitleAndContent(f.title, f.text));
  }

  // ---------------------------------------------------------------------
  // Processing and dispatch

  function RenderText(m: LegacyMethod, d: Data): string {
    match m
    case OnlyTitleAndText => TitleAndContent(d.title, d.text)
    case MergeAllFeatureToText =>
      MergedFeatures(Features(d.title, d.text, d.helpfulVote, d.verifiedPurchase))
  }

  /** `process_train` / `process_test` (identical in both strategies): set
      the processed text, leave the rating and every other field alone. */
  function Process(m: LegacyMethod, d: Data): (r: Data)
    ensures SameReview(d, r)
    ensures r.rating == d.rating
    ensures r.processedText.Some?
  {
    d.(processedText := Some(RenderText(m, d)))
  }

  /** The processed text holds the fields whole and in template order. */
  lemma ProcessedTextDecodes(m: LegacyMethod, d: Data)
    ensures var t := Process(m, d).processedText.value;
      match m
      case OnlyTitleAndText => ParseTitleAndContent(t, |d.title|) == Some((d.title, d.text))
      case MergeAllFeatureToText =>
        ParseMergedFeatures(t, |d.title|) == Some(Features(d.title, d.text, d.helpfulVote, d.verifiedPurchase))
  {
    match m
    case OnlyTitleAndText => TitleAndContentRoundTrip(d.title, d.text);
    case MergeAllFeatureToText =>
      MergedFeaturesRoundTrip(Features(d.title, d.text, d.helpfulVote, d.verifiedPurchase));
  }

  function Flag(m: LegacyMethod): string {
    match m
    case OnlyTitleAndText => "only_title_and_text"
    case MergeAllFeatureToText => "merge_all_feature_to_text"
  }

  /** `get_processed_method` of `preprocess.py`. */
  function GetProcessedMethod(flag: string): (r: Result<LegacyMethod>)
    ensures r.Ok? <==> flag == Flag(OnlyTitleAndText) || flag == Flag(MergeAllFeatureToText)
    ensures r.Ok? ==> Flag(r.value) == flag
    ensures r.Err? ==> r.message == "Invalid processed method flag: " + flag
  {
    if flag == Flag(OnlyTitleAndText) then Ok(OnlyTitleAndText)
    else if flag == Flag(MergeAllFeatureToText) then Ok(MergeAllFeatureToText)
    else Err("Invalid processed method flag: " + flag)
  }

  lemma DispatchRoundTrip(m: LegacyMethod)
    ensures GetProcessedMethod(Flag(m)) == Ok(m)
  {
  }

  // ---------------------------------------------------------------------
  // Record construction

  /** One element of the parsed JSON list. `rating` is the JSON number;
      the test file's rating, if present, is ignored. */
  datatype RawReview = RawReview(
    rating: real,
    title: string,
    text: string,
    helpfulVote: int,
    verifiedPurchase: bool)

  /** Python's `int()` on a number: truncation toward zero. */
  function TruncateToInt(x: real): (r: int)
    ensures x >= 0.0 ==> r as real <= x < r as real + 1.0
    ensures x < 0.0 ==> r as real - 1.0 < x <= r as real
  {
    if x >= 0.0 then x.Floor else -((-x).Floor)
  }

  /** `f'index_{index}'`. */
  function IndexName(i: nat): (r: string)
    ensures "index_" <= r && |r| > 6
    ensures AllDigits(r[6..]) && DigitsValue(r[6..]) == i
    ensures r[6] == '0' ==> i == 0 && |r| == 7
  {
    NatToStringRoundTrip(i);
    "index_" + NatToString(i)
  }

  /** Distinct positions get distinct index names. */
  lemma IndexNameInjective(i: nat, j: nat)
    ensures IndexName(i) == IndexName(j) <==> i == j
  {
    if IndexName(i) == IndexName(j) {
      assert IndexName(i)[6..] == NatToString(i);
      assert IndexName(j)[6..] == NatToString(j);
      NatToStringRoundTrip(i);
      NatToStringRoundTrip(j);
    }
  }

  /** The train record built at position `i`. */
  function TrainRecord(i: nat, raw: RawReview): Data {
    Data(IndexName(i), TruncateToInt(raw.rating), raw.title, raw.text,
      raw.helpfulVote, raw.verifiedPurchase, None)
  }

  /** The test record built at position `i`: its rating is always -1. */
  function TestRecord(i: nat, raw: RawReview): Data {
    Data(IndexName(i), TestRating, raw.title, raw.text,
      raw.helpfulVote, raw.verifiedPurchase, None)
  }

  /** The `for index, d in enumerate(temp_data)` loop over the train file. */
  method BuildTrainRecords(raw: seq<RawReview>) returns (records: seq<Data>)
    ensures |records| == |raw|
    ensures forall i :: 0 <= i < |raw| ==> records[i] == TrainRecord(i, raw[i])
    ensures forall i, j :: 0 <= i < j < |records| ==> records[i].index != records[j].index
  {
    records := [];
    var i := 0;
    while i < |raw|
      invariant 0 <= i <= |raw|
      invariant |records| == i
      invariant forall k :: 0 <= k < i ==> records[k] == TrainRecord(k, raw[k])
    {
      records := records + [TrainRecord(i, raw[i])];
      i := i + 1;
    }
    forall i, j | 0 <= i < j < |records|
      ensures records[i].index != records[j].index
    {
      IndexNameInjective(i, j);
    }
  }

  /** The same loop over the test file; every record gets rating -1
      whatever the file says. */
  method BuildTestRecords(raw: seq<RawReview>) returns (records: seq<Data>)
    ensures |records| == |raw|
    ensures forall i :: 0 <= i < |raw| ==> records[i] == TestRecord(i, raw[i])
    ensures forall i :: 0 <= i < |records| ==> records[i].rating == TestRating
    ensures forall i, j :: 0 <= i < j < |records| ==> records[i].index != records[j].index
  {
    records := [];
    var i := 0;
    while i < |raw|
      invariant 0 <= i <= |raw|
      invariant |records| == i
      invariant forall k :: 0 <= k < i ==> records[k] == TestRecord(k, raw[k])
    {
      records := records + [TestRecord(i, raw[i])];
      i := i + 1;
    }
    forall i, j | 0 <= i < j < |records|
      ensures records[i].index != records[j].index
    {
      IndexNameInjective(i, j);
    }
  }

  // ---------------------------------------------------------------------
  // Shuffle and split

  /** `perm` reorders `n` elements: `random.shuffle` moves element
      `perm[i]` to position `i`. */
  predicate IsPermutation(perm: seq<nat>, n: nat) {
    && |perm| == n
    && (forall i :: 0 <= i < n ==> perm[i] < n)
    && (forall i, j :: 0 <= i < j < n ==> perm[i] != perm[j])
    && (forall j :: 0 <= j < n ==> j in perm)
  }

  /** A sequence laid out by a permutation of `l`'s positions holds every
      element of `l`. */
  lemma PermutedKeepsAll<T>(l: seq<T>, perm: seq<nat>, r: seq<T>)
    requires IsPermutation(perm, |l|)
    requires |r| == |l| && forall i :: 0 <= i < |r| ==> r[i] == l[perm[i]]
    ensures forall j :: 0 <= j < |l| ==> l[j] in r
  {
    forall j | 0 <= j < |l|
      ensures l[j] in r
    {
      assert j in perm;
      var i :| 0 <= i < |perm| && perm[i] == j;
      assert r[i] == l[j];
    }
  }

  /** `s` with position `p` removed. */
  function Without<T>(s: seq<T>, p: nat): (r: seq<T>)
    requires p < |s|
    ensures |r| == |s| - 1
    ensures forall i :: 0 <= i < |r| ==> r[i] == s[if i < p then i else i + 1]
    ensures multiset(s) == multiset(r) + multiset{s[p]}
  {
    assert s == s[..p] + [s[p]] + s[p + 1..];
    s[..p] + s[p + 1..]
  }

  /** Dropping the entry that points at the last position leaves a
      permutation of the positions before it. */
  lemma PermutationWithout(perm: seq<nat>, n: nat, p: nat)
    requires IsPermutation(perm, n + 1) && p < |perm| && perm[p] == n
    ensures IsPermutation(Without(perm, p), n)
  {
    var w := Without(perm, p);
    forall i | 0 <= i < n
      ensures w[i] < n
    {
      var a := if i < p then i else i + 1;
      assert w[i] == perm[a] && perm[a] != perm[p];
    }
    forall i, j | 0 <= i < j < n
      ensures w[i] != w[j]
    {
      var a := if i < p then i else i + 1;
      var b := if j < p then j else j + 1;
      assert w[i] == perm[a] && w[j] == perm[b];
    }
    forall j | 0 <= j < n
      ensures j in w
    {
      assert j in perm;
      var q :| 0 <= q < |perm| && perm[q] == j;
      if q < p {
        assert w[q] == j;
      } else {
        assert w[q - 1] == j;
      }
    }
  }

  /** A sequence laid out by a permutation of `l`'s positions has the same
      elements as `l`, each as often. The proof removes the last element
      of `l` and the position the permutation sends to it. */
  lemma {:induction false} PermutedMultiset<T>(l: seq<T>, perm: seq<nat>, r: seq<T>)
    requires IsPermutation(perm, |l|)
    requires |r| == |l| && forall i :: 0 <= i < |r| ==> r[i] == l[perm[i]]
    ensures multiset(r) == multiset(l)
    decreases |l|
  {
    if |l| > 0 {
      var n := |l| - 1;
      assert n in perm;
      var p :| 0 <= p < |perm| && perm[p] == n;
      PermutationWithout(perm, n, p);
      var perm', r', l' := Without(perm, p), Without(r, p), l[..n];
      forall i | 0 <= i < n
        ensures r'[i] == l'[perm'[i]]
      {
        var a := if i < p then i else i + 1;
        assert r'[i] == r[a] && perm'[i] == perm[a];
      }
      PermutedMultiset(l', perm', r');
      assert l == l' + [l[n]];
    }
  }

  /** `random.shuffle`, with the permutation it draws as a parameter: the
      same elements, each moved, none lost. */
  function Shuffle<T(==)>(l: seq<T>, perm: seq<nat>): (r: seq<T>)
    requires IsPermutation(perm, |l|)
    ensures |r| == |l|
    ensures forall i :: 0 <= i < |r| ==> r[i] in l
    ensures forall j :: 0 <= j < |l| ==> l[j] in r
    ensures multiset(r) == multiset(l)
  {
    var r := seq(|l|, i requires 0 <= i < |l| => l[perm[i]]);
    PermutedKeepsAll(l, perm, r);
    PermutedMultiset(l, perm, r);
    r
  }

  /** Where `l[:k]` ends, by Python's slice rules: a negative `k` counts
      from the end, and both ends are clamped to the list. */
  function SliceBound(k: int, n: nat): (b: nat)
    ensures b <= n
  {
    if k < 0 then (if n + k < 0 then 0 else n + k)
    else if k > n then n
    else k
  }

  /** `(l[:k], l[k:])`: validation first, train second. */
  function Split<T>(l: seq<T>, k: int): (r: (seq<T>, seq<T>))
    ensures r.0 + r.1 == l
    ensures |r.0| == SliceBound(k, |l|)
  {
    (l[..SliceBound(k, |l|)], l[SliceBound(k, |l|)..])
  }

  /** The split sizes for each kind of `k`. */
  lemma SplitSizes<T>(l: seq<T>, k: int)
    ensures 0 <= k <= |l| ==> |Split(l, k).0| == k && |Split(l, k).1| == |l| - k
    ensures k > |l| ==> Split(l, k) == (l, [])
    ensures k < 0 ==> |Split(l, k).1| == if -k < |l| then -k else |l|
  {
    if k > |l| {
      assert l[..|l|] == l;
    }
  }

  lemma ScaleBound(x: real, ratio: real)
    requires 0.0 <= x && 0.0 <= ratio <= 1.0
    ensures 0.0 <= x * ratio <= x
  {
    assert x * (1.0 - ratio) >= 0.0;
  }

  /** `int(len(train_data) * train_valid_ratio)`, on exact reals: for a
      ratio in [0, 1] the validation size lies in 0..n. */
  function ValidationSize(n: nat, ratio: real): (k: int)
    ensures 0.0 <= n as real * ratio ==> k as real <= n as real * ratio < k as real + 1.0
    ensures n as real * ratio < 0.0 ==> k as real - 1.0 < n as real * ratio <= k as real
    ensures 0.0 <= ratio <= 1.0 ==> 0 <= k <= n
  {
    if 0.0 <= ratio <= 1.0 then ScaleBound(n as real, ratio); TruncateToInt(n as real * ratio)
    else TruncateToInt(n as real * ratio)
  }

  // ---------------------------------------------------------------------
  // The whole run

  /** Some record of `records` carries the index name of position `j`. */
  predicate HasIndexOf(records: seq<Data>, j: nat) {
    exists i :: 0 <= i < |records| && records[i].index == IndexName(j)
  }

  /** Every processed train record keeps its index, so after the shuffle
      each input position appears exactly once. */
  lemma ShuffledIndices(trainRaw: seq<RawReview>, perm: seq<nat>, shuffled: seq<Data>)
    requires IsPermutation(perm, |trainRaw|)
    requires |shuffled| == |trainRaw|
    requires forall i :: 0 <= i < |shuffled| ==> shuffled[i].index == IndexName(perm[i])
    ensures forall j: nat :: j < |trainRaw| ==> HasIndexOf(shuffled, j)
    ensures forall i, j :: 0 <= i < j < |shuffled| ==> shuffled[i].index != shuffled[j].index
  {
    forall i, j | 0 <= i < j < |shuffled|
      ensures shuffled[i].index != shuffled[j].index
    {
      IndexNameInjective(perm[i], perm[j]);
    }
    forall j: nat | j < |trainRaw|
      ensures HasIndexOf(shuffled, j)
    {
      assert j in perm;
      var i :| 0 <= i < |perm| && perm[i] == j;
      assert shuffled[i].index == IndexName(j);
    }
  }

  /** `list(map(process_method.process_train, train_data))` followed by
      `random.shuffle`. */
  function ProcessAndShuffle(m: LegacyMethod, records: seq<Data>, perm: seq<nat>): (r: seq<Data>)
    requires IsPermutation(perm, |records|)
    ensures |r| == |records|
    ensures forall i :: 0 <= i < |r| ==> r[i] == Process(m, records[perm[i]])
  {
    Shuffle(Lists.Map((d: Data) => Process(m, d), records), perm)
  }

  datatype Outputs = Outputs(train: seq<Data>, validation: seq<Data>, test: seq<Data>)

  /** `main` (file I/O left out): dispatch first, then build, process,
      shuffle and split the train records, then build and process the test
      records. Validation followed by train is the shuffled train set, so
      no record is lost or duplicated. */
  method Run(flag: string, trainRaw: seq<RawReview>, testRaw: seq<RawReview>, perm: seq<nat>, k: int)
    returns (out: Result<Outputs>)
    requires IsPermutation(perm, |trainRaw|)
    ensures out.Err? <==> GetProcessedMethod(flag).Err?
    ensures out.Err? ==> out.message == "Invalid processed method flag: " + flag
    ensures out.Ok? ==>
      var m := GetProcessedMethod(flag).value;
      var o := out.value;
      var all := o.validation + o.train;
      && |o.validation| == SliceBound(k, |trainRaw|)
      && |all| == |trainRaw|
      && (forall i :: 0 <= i < |all| ==> all[i] == Process(m, TrainRecord(perm[i], trainRaw[perm[i]])))
      && (forall j: nat :: j < |trainRaw| ==> HasIndexOf(all, j))
      && (forall i, j :: 0 <= i < j < |all| ==> all[i].index != all[j].index)
      && |o.test| == |testRaw|
      && (forall i :: 0 <= i < |testRaw| ==> o.test[i] == Process(m, TestRecord(i, testRaw[i])))
      && (forall i :: 0 <= i < |testRaw| ==> o.test[i].rating == TestRating)
  {
    var dispatched := GetProcessedMethod(flag);
    if dispatched.Err? {
      return Err(dispatched.message);
    }
    var m := dispatched.value;

    var trainRecords := BuildTrainRecords(trainRaw);
    var shuffled := ProcessAndShuffle(m, trainRecords, perm);
    ShuffledIndices(trainRaw, perm, shuffled);
    var split := Split(shuffled, k);

    var testRecords := BuildTestRecords(testRaw);
    var test := Lists.Map((d: Data) => Process(m, d), testRecords);

    return Ok(Outputs(split.1, split.0, test));
  }
}
