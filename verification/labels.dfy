/** The rating-to-label rules of the strategies in `src/process_method.py`.
    Three strategies look the rating up in a dictionary; a rating that is
    not a key raises `KeyError`, which the model turns into the precondition
    `Defined`. The rest subtract one from any integer. */
module Labels {

  /** The label the source writes for "test record" and "ignore this
      record"; the filtering strategies drop records that carry it. */
  const NoLabel: int := -1

  datatype LabelRule = SubtractOne | Only12Star | Only45Star | Group12And45

  const Only12StarTable: map<int, int> :=
    map[0 := -1, 1 := 0, 2 := 1, 3 := -1, 4 := -1, 5 := -1]

  const Only45StarTable: map<int, int> :=
    map[0 := -1, 1 := -1, 2 := -1, 3 := -1, 4 := 0, 5 := 1]

  const Group12And45Table: map<int, int> :=
    map[0 := -1, 1 := 0, 2 := 0, 3 := 1, 4 := 2, 5 := 2]

  function Table(rule: LabelRule): map<int, int>
    requires !rule.SubtractOne?
  {
    match rule
    case Only12Star => Only12StarTable
    case Only45Star => Only45StarTable
    case Group12And45 => Group12And45Table
  }

  /** The rule does not raise on `rating`. */
  predicate Defined(rule: LabelRule, rating: int) {
    rule.SubtractOne? || rating in Table(rule)
  }

  /** Number of target classes the rule produces from a 1..5 star rating. */
  function NumClasses(rule: LabelRule): nat {
    match rule
    case SubtractOne => 5
    case Only12Star => 2
    case Only45Star => 2
    case Group12And45 => 3
  }

  /** `get_transformed_rating` for the table rules, `rating - 1` for the
      others. Rating 0 (the test record) always becomes `NoLabel`. */
  function Transform(rule: LabelRule, rating: int): (cls: int)
    requires Defined(rule, rating)
    ensures rating == 0 ==> cls == NoLabel
    ensures rule.SubtractOne? ==> cls + 1 == rating
    ensures rule.Only12Star? ==>
      && (cls != NoLabel <==> 1 <= rating <= 2)
      && (cls != NoLabel ==> cls == rating - 1)
    ensures rule.Only45Star? ==>
      && (cls != NoLabel <==> 4 <= rating <= 5)
      && (cls != NoLabel ==> cls == rating - 4)
    ensures rule.Group12And45? ==>
      && (cls == NoLabel <==> rating == 0)
      && (cls == 0 <==> 1 <= rating <= 2)
      && (cls == 1 <==> rating == 3)
      && (cls == 2 <==> 4 <= rating <= 5)
  {
    if rule.SubtractOne? then rating - 1 else Table(rule)[rating]
  }

  /** Every table rule is defined on exactly the ratings 0..5. */
  lemma TableDomain(rule: LabelRule, rating: int)
    requires !rule.SubtractOne?
    ensures Defined(rule, rating) <==> 0 <= rating <= 5
  {
  }

  /** A star rating 1..5 lands in the rule's class range, or is marked for
      dropping; only the two binary rules ever mark one. */
  lemma LabelClosure(rule: LabelRule, rating: int)
    requires 1 <= rating <= 5
    ensures Defined(rule, rating)
    ensures var cls := Transform(rule, rating);
      (0 <= cls < NumClasses(rule)) || (cls == NoLabel && (rule.Only12Star? || rule.Only45Star?))
  {
  }

  /** The binary rules keep the five-class label of the stars they keep,
      shifted so that the lower star becomes class 0. */
  lemma BinaryRefinesFiveClass(rating: int)
    requires 0 <= rating <= 5
    ensures Transform(Only12Star, rating) != NoLabel ==>
      Transform(Only12Star, rating) == Transform(SubtractOne, rating)
    ensures Transform(Only45Star, rating) != NoLabel ==>
      Transform(Only45Star, rating) == Transform(SubtractOne, rating) - 3
  {
  }

  /** The ternary grouping never reverses the order of two ratings. */
  lemma GroupMonotone(a: int, b: int)
    requires 0 <= a <= b <= 5
    ensures Transform(Group12And45, a) <= Transform(Group12And45, b)
  {
  }
}
