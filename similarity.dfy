/** Token-set Jaccard similarity. The memory retriever, the heuristic evaluator
    and the regression-gate command each define the same function: the tokens of
    a text are the distinct whitespace-separated words of its lower-cased form,
    two empty token sets are identical, one empty set shares nothing, and
    otherwise the score is the size of the intersection over the size of the
    union. */
module Similarity {
  import opened Strings
  import opened Reals

  /** `set(text.lower().split())`. */
  function Tokens(s: string): (ts: set<string>)
    ensures forall w :: w in ts ==> w != []
  {
    set w | w in Words(Lower(s))
  }

  /** The score of two token sets. */
  function JaccardSets(sa: set<string>, sb: set<string>): real {
    if sa == {} && sb == {} then 1.0
    else if sa == {} || sb == {} then 0.0
    else Div(|sa * sb| as real, |sa + sb| as real)
  }

  function Jaccard(a: string, b: string): real {
    JaccardSets(Tokens(a), Tokens(b))
  }

  lemma {:induction false} SubsetCardinality<T>(a: set<T>, b: set<T>)
    requires a <= b
    ensures |a| <= |b|
    decreases |a|
  {
    if a != {} {
      var x :| x in a;
      SubsetCardinality(a - {x}, b - {x});
    }
  }

  /** The score is a ratio in [0, 1], with the two empty-set cases fixed. */
  lemma JaccardSetsRange(sa: set<string>, sb: set<string>)
    ensures 0.0 <= JaccardSets(sa, sb) <= 1.0
    ensures sa == {} && sb == {} ==> JaccardSets(sa, sb) == 1.0
    ensures (sa == {}) != (sb == {}) ==> JaccardSets(sa, sb) == 0.0
    ensures sa != {} && sb != {} ==> JaccardSets(sa, sb) == (|sa * sb| as real) / (|sa + sb| as real)
  {
    if sa != {} && sb != {} {
      SubsetCardinality(sa * sb, sa + sb);
      SubsetCardinality(sa, sa + sb);
      DivValue(|sa * sb| as real, |sa + sb| as real);
    }
  }

  lemma JaccardRange(a: string, b: string)
    ensures 0.0 <= Jaccard(a, b) <= 1.0
    ensures Tokens(a) == {} && Tokens(b) == {} ==> Jaccard(a, b) == 1.0
    ensures (Tokens(a) == {}) != (Tokens(b) == {}) ==> Jaccard(a, b) == 0.0
    ensures Tokens(a) != {} && Tokens(b) != {} ==>
              Jaccard(a, b) == (|Tokens(a) * Tokens(b)| as real) / (|Tokens(a) + Tokens(b)| as real)
  {
    JaccardSetsRange(Tokens(a), Tokens(b));
  }

  lemma JaccardSymmetric(a: string, b: string)
    ensures Jaccard(a, b) == Jaccard(b, a)
  {
    var sa, sb := Tokens(a), Tokens(b);
    assert sa * sb == sb * sa;
    assert sa + sb == sb + sa;
  }

  /** Upper- and lower-case letters tokenize alike. */
  lemma TokensCaseInsensitive(s: string)
    ensures Tokens(Lower(s)) == Tokens(s)
  {
    LowerIdempotent(s);
  }

  lemma JaccardCaseInsensitive(a: string, b: string)
    ensures Jaccard(Lower(a), b) == Jaccard(a, b)
    ensures Jaccard(a, Lower(b)) == Jaccard(a, b)
  {
    TokensCaseInsensitive(a);
    TokensCaseInsensitive(b);
  }

  lemma JaccardSetsExtremes(sa: set<string>, sb: set<string>)
    ensures sa == sb ==> JaccardSets(sa, sb) == 1.0
    ensures sa * sb == {} && (sa != {} || sb != {}) ==> JaccardSets(sa, sb) == 0.0
    ensures sa * sb != {} ==> JaccardSets(sa, sb) > 0.0
  {
    if sa * sb != {} {
      var x :| x in sa * sb;
      assert x in sa && x in sb;
      SubsetCardinality(sa, sa + sb);
      DivValue(|sa * sb| as real, |sa + sb| as real);
    }
    if sa == sb && sa != {} {
      assert sa * sb == sa && sa + sb == sa;
      var x :| x in sa;
      assert |sa| > 0;
      DivValue(|sa| as real, |sa| as real);
    }
  }

  /** Texts with the same words score 1; texts with no common word score 0. */
  lemma JaccardExtremes(a: string, b: string)
    ensures Tokens(a) == Tokens(b) ==> Jaccard(a, b) == 1.0
    ensures Tokens(a) * Tokens(b) == {} && (Tokens(a) != {} || Tokens(b) != {}) ==> Jaccard(a, b) == 0.0
    ensures Tokens(a) * Tokens(b) != {} ==> Jaccard(a, b) > 0.0
  {
    JaccardSetsExtremes(Tokens(a), Tokens(b));
  }

  lemma JaccardReflexive(a: string)
    ensures Jaccard(a, a) == 1.0
  {
    JaccardExtremes(a, a);
  }
}
