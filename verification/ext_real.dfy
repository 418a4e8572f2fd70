/** Reals extended with Python's `float("-inf")` and `float("inf")`, the
    starting scores of the optimizers' leaders. */
module ExtReal {

  datatype Ext = NegInf | Fin(v: real) | PosInf

  /** The total order of the extended reals. */
  predicate Le(a: Ext, b: Ext) {
    a.NegInf? || b.PosInf? || (a.Fin? && b.Fin? && a.v <= b.v)
  }

  lemma LeTotalOrder(a: Ext, b: Ext, c: Ext)
    ensures Le(a, a)
    ensures Le(a, b) || Le(b, a)
    ensures Le(a, b) && Le(b, a) ==> a == b
    ensures Le(a, b) && Le(b, c) ==> Le(a, c)
  {
  }
}
