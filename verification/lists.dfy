/** Python's `list(map(f, xs))` and `list(filter(p, xs))` on sequences, with
    the facts the dataset functions rely on: a map keeps length and order
    element by element, a filter keeps exactly the matching elements in
    their original order, and both distribute over concatenation. */
module Lists {

  /** `list(map(f, s))`. `f` may be partial, as a dictionary lookup is. */
  function Map<A, B>(f: A --> B, s: seq<A>): (r: seq<B>)
    requires forall i :: 0 <= i < |s| ==> f.requires(s[i])
    decreases |s|
    ensures |r| == |s|
    ensures forall i :: 0 <= i < |s| ==> r[i] == f(s[i])
  {
    if |s| == 0 then [] else [f(s[0])] + Map(f, s[1..])
  }

  /** `list(filter(keep, s))`. */
  function Filter<A>(keep: A -> bool, s: seq<A>): (r: seq<A>)
    decreases |s|
    ensures |r| <= |s|
    ensures forall k :: 0 <= k < |r| ==> r[k] in s && keep(r[k])
    ensures forall i :: 0 <= i < |s| && keep(s[i]) ==> s[i] in r
  {
    if |s| == 0 then []
    else (if keep(s[0]) then [s[0]] else []) + Filter(keep, s[1..])
  }

  lemma {:induction false} MapConcat<A, B>(f: A --> B, a: seq<A>, b: seq<A>)
    requires forall i :: 0 <= i < |a| ==> f.requires(a[i])
    requires forall i :: 0 <= i < |b| ==> f.requires(b[i])
    ensures forall i :: 0 <= i < |a + b| ==> f.requires((a + b)[i])
    ensures Map(f, a + b) == Map(f, a) + Map(f, b)
    decreases |a|
  {
    if |a| == 0 {
      assert a + b == b;
    } else {
      var ab := a + b;
      assert ab[0] == a[0];
      assert ab[1..] == a[1..] + b;
      MapConcat(f, a[1..], b);
      calc {
        Map(f, ab);
        [f(a[0])] + Map(f, a[1..] + b);
        [f(a[0])] + (Map(f, a[1..]) + Map(f, b));
        ([f(a[0])] + Map(f, a[1..])) + Map(f, b);
      }
    }
  }

  /** Filtering distributes over concatenation; with `FilterSingleton` this
      pins the filter down to "the kept elements, in order". */
  lemma {:induction false} FilterConcat<A>(keep: A -> bool, a: seq<A>, b: seq<A>)
    ensures Filter(keep, a + b) == Filter(keep, a) + Filter(keep, b)
    decreases |a|
  {
    if |a| == 0 {
      assert a + b == b;
    } else {
      assert (a + b)[0] == a[0];
      assert (a + b)[1..] == a[1..] + b;
      FilterConcat(keep, a[1..], b);
    }
  }

  lemma FilterSingleton<A>(keep: A -> bool, x: A)
    ensures Filter(keep, [x]) == if keep(x) then [x] else []
  {
    assert [x][1..] == [];
  }

  /** A filter that keeps everything is the identity. */
  lemma {:induction false} FilterKeepsAll<A>(keep: A -> bool, s: seq<A>)
    requires forall i :: 0 <= i < |s| ==> keep(s[i])
    ensures Filter(keep, s) == s
    decreases |s|
  {
    if |s| > 0 {
      FilterKeepsAll(keep, s[1..]);
      assert [s[0]] + s[1..] == s;
    }
  }

  /** A filter that matches nothing returns the empty list. */
  lemma {:induction false} FilterKeepsNone<A>(keep: A -> bool, s: seq<A>)
    requires forall i :: 0 <= i < |s| ==> !keep(s[i])
    ensures Filter(keep, s) == []
    decreases |s|
  {
    if |s| > 0 {
      FilterKeepsNone(keep, s[1..]);
    }
  }

  /** The filter keeps every element exactly when its length is unchanged. */
  lemma {:induction false} FilterLengthUnchanged<A>(keep: A -> bool, s: seq<A>)
    ensures |Filter(keep, s)| == |s| <==> forall i :: 0 <= i < |s| ==> keep(s[i])
    decreases |s|
  {
    if |s| > 0 {
      FilterLengthUnchanged(keep, s[1..]);
      if !keep(s[0]) {
        assert |Filter(keep, s)| == |Filter(keep, s[1..])| <= |s| - 1;
      } else {
        assert forall i :: 1 <= i < |s| ==> s[i] == s[1..][i - 1];
      }
    }
  }
}
