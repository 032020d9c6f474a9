/** Vocabulary shared by the components. */
module Prelude {
  /** A Firestore field or document that may be absent. */
  datatype Option<+T> = None | Some(value: T)

  function Bit(b: bool): (n: int) {
    if b then 1 else 0
  }

  /** Two sets that agree everywhere but on `x` differ in size only by their opinion of `x`. */
  lemma SizeAfterChange<T>(before: set<T>, after: set<T>, x: T)
    requires before - {x} == after - {x}
    ensures |after| == |before| - Bit(x in before) + Bit(x in after)
  {
    var common := before - {x};
    assert before == if x in before then common + {x} else common;
    assert after == if x in after then common + {x} else common;
  }

  lemma SizeOfDisjointUnion<T>(whole: set<T>, a: set<T>, b: set<T>)
    requires whole == a + b && a * b == {}
    ensures |whole| == |a| + |b|
  {
  }

  lemma SizeOfThreeParts<T>(whole: set<T>, a: set<T>, b: set<T>, c: set<T>)
    requires whole == a + b + c && a !! b !! c
    ensures |whole| == |a| + |b| + |c|
  {
    SizeOfDisjointUnion(a + b, a, b);
    SizeOfDisjointUnion(whole, a + b, c);
  }
}
