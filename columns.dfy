/**
 * Column labels of the credit-card dataset frame. The dataset's columns are
 * Time, V1..V28, Amount and Class; preparation adds NormalizedAmount and
 * NormalizedTime. A label is kept as a value and rendered to the exact
 * string pandas uses by Label.
 */
module Columns {
  import opened Decimal

  datatype Column = V(k: nat) | Time | Amount | Class | NormalizedAmount | NormalizedTime

  /** The column's name as it appears in the frame. */
  function Label(c: Column): string
  {
    match c
    case V(k) => "V" + NatToString(k)
    case Time => "Time"
    case Amount => "Amount"
    case Class => "Class"
    case NormalizedAmount => "NormalizedAmount"
    case NormalizedTime => "NormalizedTime"
  }

  /** Exactly the anonymised feature columns have names starting with 'V'. */
  lemma LabelStartsWithV(c: Column)
    ensures |Label(c)| > 0 && (Label(c)[0] == 'V' <==> c.V?)
  {
  }

  /** Two columns have the same name exactly when they are the same column. */
  lemma LabelInjective(a: Column, b: Column)
    ensures Label(a) == Label(b) <==> a == b
  {
    if Label(a) == Label(b) {
      if a.V? && b.V? {
        assert NatToString(a.k) == Label(a)[1..];
        assert NatToString(b.k) == Label(b)[1..];
        NatToStringInjective(a.k, b.k);
      } else if a.V? != b.V? {
        LabelStartsWithV(a);
        LabelStartsWithV(b);
        assert false;
      }
    }
  }
}
