/** The text templates of the seven strategies in `src/process_method.py`.
    Each renderer has a decoder that, told how long the free-text fields
    are, reads every field back out of the rendered string; the round-trip
    lemmas show that a template keeps each field whole and in its place. */
module Render {
  import opened Results
  import opened Decimal
  import opened Scan

  /** The separator of the title/text template. */
  const Sep: string := " [SEP] "

  /** `f'{title} [SEP] {text}'`: the template of every "only title and
      text" strategy, cleaned or not. */
  function TitleSepText(title: string, text: string): (r: string)
    ensures |r| == |title| + |Sep| + |text|
    ensures title <= r
    ensures r[|title|..|title| + |Sep|] == Sep
    ensures r[|title| + |Sep|..] == text
  {
    title + Sep + text
  }

  function ParseTitleSepText(r: string, titleLen: nat): Option<(string, string)> {
    var split :- Take(r, titleLen);
    var text :- Lit(split.1, Sep);
    Some((split.0, text))
  }

  lemma TitleSepTextRoundTrip(title: string, text: string)
    ensures ParseTitleSepText(TitleSepText(title, text), |title|) == Some((title, text))
  {
    assert TitleSepText(title, text) == title + (Sep + text);
    TakeOfConcat(title, Sep + text);
    LitOfConcat(Sep, text);
  }

  /** The inputs of the "merge all features" sentence. */
  datatype Features = Features(title: string, text: string, helpfulVote: int, verifiedPurchase: bool)

  /** `MergeAllFeatureToText` writes the sentence as shown; its cleaned
      variant writes it in lower case with a colon after "title is". */
  datatype Phrasing = Plain | Lowered

  function TitleLead(p: Phrasing): string {
    match p
    case Plain => "This Review Title is "
    case Lowered => "this review title is: "
  }

  const ContentLead: string := " and the content is: "

  function InfoLead(p: Phrasing): string {
    match p
    case Plain => ".There are other information for this review, one is "
    case Lowered => ".there are other information for this review, one is "
  }

  function ReviewerLead(p: Phrasing): string {
    match p
    case Plain => "This reviewer did "
    case Lowered => "this reviewer did "
  }

  function PurchaseWords(verified: bool): string {
    if verified then "purchase it" else "not purchase it"
  }

  const VoteLead: string := " and the other is "

  const VoteTail: string := " people think this review is helpful."

  /** "This reviewer did purchase it" or "... did not purchase it". */
  function PurchaseClause(p: Phrasing, verified: bool): string {
    ReviewerLead(p) + PurchaseWords(verified)
  }

  /** The "merge all features" sentence: title, content, the purchase
      clause and the helpful-vote count, in that order. The pieces are
      grouped from the right, which is how the decoder reads them. */
  function MergeAllFeatures(p: Phrasing, f: Features): (r: string)
    ensures TitleLead(p) + f.title <= r
    ensures EndsWith(r, VoteTail)
  {
    var rest := ContentLead + (f.text + (InfoLead(p)
      + (PurchaseClause(p, f.verifiedPurchase)
      + (VoteLead + (IntToString(f.helpfulVote) + VoteTail)))));
    PrefixOfTwoPieces(TitleLead(p), f.title, rest);
    LastOfNinePieces(TitleLead(p), f.title, ContentLead, f.text, InfoLead(p),
      PurchaseClause(p, f.verifiedPurchase), VoteLead, IntToString(f.helpfulVote), VoteTail);
    TitleLead(p) + (f.title + rest)
  }

  /** Position of the purchase clause in `MergeAllFeatures(p, f)`. */
  function ClauseOffset(p: Phrasing, f: Features): nat {
    |TitleLead(p)| + |f.title| + |ContentLead| + |f.text| + |InfoLead(p)|
  }

  function ParsePurchase(s: string): Option<(bool, string)> {
    match Lit(s, PurchaseWords(true))
    case Some(rest) => Some((true, rest))
    case None =>
      match Lit(s, PurchaseWords(false))
      case Some(rest) => Some((false, rest))
      case None => None
  }

  /** Reads `{votes} people think this review is helpful.` */
  function ParseVotes(s: string): Option<int> {
    var numeral := SpanNumeral(s);
    var votes :- ParseInt(numeral.0);
    if numeral.1 == VoteTail then Some(votes) else None
  }

  /** Reads ` and the other is {votes} people think this review is helpful.` */
  function ParseVotePart(s: string): Option<int> {
    var afterVoteLead :- Lit(s, VoteLead);
    ParseVotes(afterVoteLead)
  }

  /** Reads the purchase clause and the helpful-vote count. */
  function ParseClauseAndVotes(p: Phrasing, s: string): Option<(bool, int)> {
    var afterReviewer :- Lit(s, ReviewerLead(p));
    var purchase :- ParsePurchase(afterReviewer);
    var votes :- ParseVotePart(purchase.1);
    Some((purchase.0, votes))
  }

  /** Reads everything after the content field. */
  function ParseMergeTail(p: Phrasing, s: string): Option<(bool, int)> {
    var afterInfo :- Lit(s, InfoLead(p));
    ParseClauseAndVotes(p, afterInfo)
  }

  function ParseMergeAllFeatures(p: Phrasing, r: string, titleLen: nat, textLen: nat): Option<Features> {
    var afterLead :- Lit(r, TitleLead(p));
    var title :- Take(afterLead, titleLen);
    var afterContentLead :- Lit(title.1, ContentLead);
    var text :- Take(afterContentLead, textLen);
    var tail :- ParseMergeTail(p, text.1);
    Some(Features(title.0, text.0, tail.1, tail.0))
  }

  lemma ParsePurchaseOfConcat(verified: bool, rest: string)
    ensures ParsePurchase(PurchaseWords(verified) + rest) == Some((verified, rest))
  {
    LitOfConcat(PurchaseWords(verified), rest);
    if !verified {
      var s := PurchaseWords(false) + rest;
      assert s[0] == 'n';
      assert Lit(s, PurchaseWords(true)).None?;
    }
  }

  lemma ParseVotesRoundTrip(votes: int)
    ensures ParseVotes(IntToString(votes) + VoteTail) == Some(votes)
  {
    assert !IsNumeralChar(VoteTail[0]);
    SpanNumeralOfConcat(IntToString(votes), VoteTail);
    IntToStringRoundTrip(votes);
  }

  lemma ParseVotePartRoundTrip(votes: int)
    ensures ParseVotePart(VoteLead + (IntToString(votes) + VoteTail)) == Some(votes)
  {
    LitOfConcat(VoteLead, IntToString(votes) + VoteTail);
    ParseVotesRoundTrip(votes);
  }

  lemma ParseClauseAndVotesRoundTrip(p: Phrasing, verified: bool, votes: int)
    ensures ParseClauseAndVotes(p, PurchaseClause(p, verified)
      + (VoteLead + (IntToString(votes) + VoteTail))) == Some((verified, votes))
  {
    var rest := VoteLead + (IntToString(votes) + VoteTail);
    ConcatAssoc(ReviewerLead(p), PurchaseWords(verified), rest);
    LitOfConcat(ReviewerLead(p), PurchaseWords(verified) + rest);
    ParsePurchaseOfConcat(verified, rest);
    ParseVotePartRoundTrip(votes);
  }

  lemma ParseMergeTailRoundTrip(p: Phrasing, verified: bool, votes: int)
    ensures ParseMergeTail(p, InfoLead(p) + (PurchaseClause(p, verified)
      + (VoteLead + (IntToString(votes) + VoteTail)))) == Some((verified, votes))
  {
    LitOfConcat(InfoLead(p), PurchaseClause(p, verified) + (VoteLead + (IntToString(votes) + VoteTail)));
    ParseClauseAndVotesRoundTrip(p, verified, votes);
  }

  lemma MergeAllFeaturesRoundTrip(p: Phrasing, f: Features)
    ensures ParseMergeAllFeatures(p, MergeAllFeatures(p, f), |f.title|, |f.text|) == Some(f)
  {
    var tail := InfoLead(p) + (PurchaseClause(p, f.verifiedPurchase)
      + (VoteLead + (IntToString(f.helpfulVote) + VoteTail)));
    LitOfConcat(TitleLead(p), f.title + (ContentLead + (f.text + tail)));
    TakeOfConcat(f.title, ContentLead + (f.text + tail));
    LitOfConcat(ContentLead, f.text + tail);
    TakeOfConcat(f.text, tail);
    ParseMergeTailRoundTrip(p, f.verifiedPurchase, f.helpfulVote);
  }

  /** In a right-grouped concatenation, which of two words follows a lead
      placed after five other pieces is decided by their first characters. */
  lemma FirstCharDecides(a: string, b: string, c: string, d: string, e: string,
                         lead: string, chosen: string, other: string, rest: string)
    requires |chosen| > 0 && |other| > 0 && chosen[0] != other[0]
    ensures var r := a + (b + (c + (d + (e + ((lead + chosen) + rest)))));
      var k := |a| + |b| + |c| + |d| + |e|;
      && k <= |r|
      && lead + chosen <= r[k..]
      && !(lead + other <= r[k..])
  {
    DropFivePieces(a, b, c, d, e, (lead + chosen) + rest);
    var tail := (lead + chosen) + rest;
    assert tail[|lead|] == chosen[0];
    assert (lead + other)[|lead|] == other[0];
  }

  /** The sentence says the reviewer "did purchase it" exactly when the
      purchase was verified, and "did not purchase it" otherwise. */
  lemma PurchaseClauseIff(p: Phrasing, f: Features)
    ensures var r := MergeAllFeatures(p, f);
      && ClauseOffset(p, f) <= |r|
      && (PurchaseClause(p, true) <= r[ClauseOffset(p, f)..] <==> f.verifiedPurchase)
      && (PurchaseClause(p, false) <= r[ClauseOffset(p, f)..] <==> !f.verifiedPurchase)
  {
    var rest := VoteLead + (IntToString(f.helpfulVote) + VoteTail);
    var v := f.verifiedPurchase;
    assert PurchaseWords(true)[0] == 'p' && PurchaseWords(false)[0] == 'n';
    FirstCharDecides(TitleLead(p), f.title, ContentLead, f.text, InfoLead(p),
      ReviewerLead(p), PurchaseWords(v), PurchaseWords(!v), rest);
  }
}
