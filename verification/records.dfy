/** The review record shared by both pipelines (`src/data.py` and its copy at
    the top of `preprocess.py`). Processing produces an updated copy instead
    of mutating the record in place. */
module Records {
  import opened Results

  /** One review. `rating` is the star rating on the way in and the target
      label once a strategy has run; `processedText` is `None` until a
      renderer has run (the source builds records with `processed_text=None`
      although it annotates the field as `str`). */
  datatype Data = Data(
    index: string,
    rating: int,
    title: string,
    text: string,
    helpfulVote: int,
    verifiedPurchase: bool,
    processedText: Option<string>)

  /** `b` describes the same review as `a`: every field a processing step
      must not touch is equal. */
  predicate SameReview(a: Data, b: Data) {
    && a.index == b.index
    && a.title == b.title
    && a.text == b.text
    && a.helpfulVote == b.helpfulVote
    && a.verifiedPurchase == b.verifiedPurchase
  }
}
