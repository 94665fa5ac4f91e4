/**
 * Closed integer intervals and the two span predicates of the NER utilities.
 * A span `(l, r)` stands for the token positions l..r, both ends included.
 */
module Spans {

  type Span = (int, int)

  /** A span whose left end does not lie after its right end. */
  predicate WellFormed(a: Span) {
    a.0 <= a.1
  }

  /** Position `p` lies in the closed interval `a`. */
  predicate Covers(a: Span, p: int) {
    a.0 <= p <= a.1
  }

  /** is_span_intersect: the two closed intervals overlap. */
  predicate IsSpanIntersect(a: Span, b: Span) {
    a.0 <= b.1 && b.0 <= a.1
  }

  /** is_span_nested: one of the two intervals contains the other. */
  predicate IsSpanNested(a: Span, b: Span) {
    (b.0 <= a.0 && a.1 <= b.1) || (a.0 <= b.0 && b.1 <= a.1)
  }

  lemma IntersectSymmetric(a: Span, b: Span)
    ensures IsSpanIntersect(a, b) == IsSpanIntersect(b, a)
  {
  }

  lemma NestedSymmetric(a: Span, b: Span)
    ensures IsSpanNested(a, b) == IsSpanNested(b, a)
  {
  }

  lemma NestedReflexive(a: Span)
    ensures IsSpanNested(a, a)
  {
  }

  /** For well-formed spans, nesting is a special case of intersection. */
  lemma NestedImpliesIntersect(a: Span, b: Span)
    requires WellFormed(a) && WellFormed(b)
    ensures IsSpanNested(a, b) ==> IsSpanIntersect(a, b)
  {
  }

  /** A well-formed span strictly inside another both intersects and nests with it. */
  lemma StrictlyInside(a: Span, b: Span)
    requires WellFormed(a)
    requires b.0 < a.0 && a.1 < b.1
    ensures IsSpanIntersect(a, b) && IsSpanNested(a, b)
  {
  }

  /** Well-formed spans that end before the other begins neither intersect nor nest. */
  lemma DisjointNeither(a: Span, b: Span)
    requires WellFormed(a) && WellFormed(b)
    requires a.1 < b.0
    ensures !IsSpanIntersect(a, b) && !IsSpanNested(a, b)
  {
  }

  /** For well-formed spans, intersection means sharing at least one position. */
  lemma IntersectIffCommonPoint(a: Span, b: Span)
    requires WellFormed(a) && WellFormed(b)
    ensures IsSpanIntersect(a, b) <==> exists p :: Covers(a, p) && Covers(b, p)
  {
    if IsSpanIntersect(a, b) {
      var p := if a.0 <= b.0 then b.0 else a.0;
      assert Covers(a, p) && Covers(b, p);
    }
  }

  /** For well-formed spans, nesting means one set of positions includes the other. */
  lemma NestedIffContainment(a: Span, b: Span)
    requires WellFormed(a) && WellFormed(b)
    ensures IsSpanNested(a, b) <==>
      (forall p :: Covers(a, p) ==> Covers(b, p)) || (forall p :: Covers(b, p) ==> Covers(a, p))
  {
    if forall p :: Covers(a, p) ==> Covers(b, p) {
      assert Covers(a, a.0) && Covers(a, a.1);
    } else if forall p :: Covers(b, p) ==> Covers(a, p) {
      assert Covers(b, b.0) && Covers(b, b.1);
    }
  }
}
