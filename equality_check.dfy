/** checkEquality(a, b, expected), the test helper that checks a type's ==
    and != operators against each other. Its definition lives in bdn/test.h,
    which is not part of this model; what it must do is fixed by the
    "checkEquality" test case, whose assertions are the lemmas below. */
module EqualityCheck {

  /** The four comparisons checkEquality makes: a==b, b==a, a!=b, b!=a. */
  datatype Comparisons = Comparisons(aEqB: bool, bEqA: bool, aNeB: bool, bNeA: bool)

  function Compare<T>(eq: (T, T) -> bool, ne: (T, T) -> bool, a: T, b: T): Comparisons
  {
    Comparisons(eq(a, b), eq(b, a), ne(a, b), ne(b, a))
  }

  /** True when both == comparisons say `expected` and both != comparisons
      say the opposite. */
  function CheckEquality(c: Comparisons, expected: bool): (ok: bool)
    ensures ok <==> && c.aEqB == c.bEqA && c.aNeB == c.bNeA && c.aEqB != c.aNeB
                    && c.aEqB == expected
  {
    c.aEqB == expected && c.bEqA == expected && c.aNeB == !expected && c.bNeA == !expected
  }

  /** The test's Comparer: compares `val`; each operator can be inverted,
      and it is the left operand's flag that counts. */
  datatype Comparer = Comparer(val: int, invertEqual: bool, invertNotEqual: bool)
  {
    function Eq(o: Comparer): bool
    {
      if invertEqual then !(val == o.val) else val == o.val
    }

    function Ne(o: Comparer): bool
    {
      if invertNotEqual then !(val != o.val) else val != o.val
    }
  }

  /** What the test relies on in its Comparer: without invert flags, == and
      != are symmetric and each other's negation; an inverted == on one side
      only makes the two argument orders disagree. */
  lemma ComparerOperators(x: Comparer, y: Comparer)
    ensures !x.invertEqual && !y.invertEqual ==> x.Eq(y) == y.Eq(x)
    ensures !x.invertNotEqual && !y.invertNotEqual ==> x.Ne(y) == y.Ne(x)
    ensures !x.invertEqual && !x.invertNotEqual ==> x.Eq(y) == !x.Ne(y)
    ensures x.invertEqual && !y.invertEqual ==> x.Eq(y) != y.Eq(x)
    ensures x.invertNotEqual && !y.invertNotEqual ==> x.Ne(y) != y.Ne(x)
  {
  }

  function CompareComparers(x: Comparer, y: Comparer): Comparisons
  {
    Compare((u: Comparer, w: Comparer) => u.Eq(w), (u: Comparer, w: Comparer) => u.Ne(w), x, y)
  }

  /** A true result means the operators are consistent on a and b: both ==
      agree, both != agree, == and != disagree, and == says `expected`.
      A corollary of CheckEquality's contract, in the words of the test. */
  lemma CheckEqualityMeansConsistent(c: Comparisons, expected: bool)
    requires CheckEquality(c, expected)
    ensures c.aEqB == c.bEqA && c.aNeB == c.bNeA && c.aEqB != c.aNeB
    ensures c.aEqB == expected
  {
  }

  /** Operators that contradict themselves or each other make checkEquality
      false whatever is expected. The other direction of CheckEquality's
      contract, stated on its own. */
  lemma InconsistentIsRejected(c: Comparisons, expected: bool)
    requires c.aEqB != c.bEqA || c.aNeB != c.bNeA || c.aEqB == c.aNeB
    ensures !CheckEquality(c, expected)
  {
  }

  /** Swapping the arguments does not change the result. */
  lemma ArgumentOrderIrrelevant<T>(eq: (T, T) -> bool, ne: (T, T) -> bool, a: T, b: T, expected: bool)
    ensures CheckEquality(Compare(eq, ne, a, b), expected) == CheckEquality(Compare(eq, ne, b, a), expected)
  {
  }

  /** With consistent operators, checkEquality holds exactly when `expected`
      says whether the values are equal. */
  lemma ConsistentComparersDecide(x: Comparer, y: Comparer, expected: bool)
    requires !x.invertEqual && !x.invertNotEqual && !y.invertEqual && !y.invertNotEqual
    ensures CheckEquality(CompareComparers(x, y), expected) <==> (expected <==> x.val == y.val)
  {
  }

  /** One side's == inverted: false for both expectations, either order. */
  lemma InvertedEqualIsRejected(x: Comparer, y: Comparer, expected: bool)
    requires x.invertEqual && !y.invertEqual
    ensures !CheckEquality(CompareComparers(x, y), expected)
    ensures !CheckEquality(CompareComparers(y, x), expected)
  {
  }

  /** One side's != inverted: false for both expectations, either order. */
  lemma InvertedNotEqualIsRejected(x: Comparer, y: Comparer, expected: bool)
    requires x.invertNotEqual && !y.invertNotEqual
    ensures !CheckEquality(CompareComparers(x, y), expected)
    ensures !CheckEquality(CompareComparers(y, x), expected)
  {
  }

  /** The assertions of the test case, on its comparers a(0), b(0), c(1). */
  lemma CheckEqualityTestCase()
    ensures var a, b, c := Comparer(0, false, false), Comparer(0, false, false), Comparer(1, false, false);
      && CheckEquality(CompareComparers(a, b), true) && CheckEquality(CompareComparers(b, a), true)
      && !CheckEquality(CompareComparers(a, b), false) && !CheckEquality(CompareComparers(b, a), false)
      && CheckEquality(CompareComparers(a, c), false) && CheckEquality(CompareComparers(c, a), false)
      && !CheckEquality(CompareComparers(a, c), true) && !CheckEquality(CompareComparers(c, a), true)
    ensures var a, b, c := Comparer(0, true, false), Comparer(0, false, false), Comparer(1, false, false);
      forall e: bool :: !CheckEquality(CompareComparers(a, b), e) && !CheckEquality(CompareComparers(b, a), e)
        && !CheckEquality(CompareComparers(a, c), e) && !CheckEquality(CompareComparers(c, a), e)
    ensures var a, b, c := Comparer(0, false, true), Comparer(0, false, false), Comparer(1, false, false);
      forall e: bool :: !CheckEquality(CompareComparers(a, b), e) && !CheckEquality(CompareComparers(b, a), e)
        && !CheckEquality(CompareComparers(a, c), e) && !CheckEquality(CompareComparers(c, a), e)
  {
  }
}
