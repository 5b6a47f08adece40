/**
 * A fitted scikit-learn LabelEncoder, reduced to what the serving code relies on:
 * its `classes_` sequence, where the code of a class is its position.
 */
module LabelEncoding {
  import opened Wrappers
  import opened Frames

  /** The fitted vocabulary `classes_`; code k stands for classes[k]. */
  type Classes = seq<string>

  /** A fitted encoder holds each class once. */
  predicate Distinct(classes: Classes)
  {
    forall i, j :: 0 <= i < j < |classes| ==> classes[i] != classes[j]
  }

  /** The first position of `v` in `classes`, or None when `v` was never seen in training. */
  function IndexOf(classes: Classes, v: string): (r: Option<nat>)
    ensures r.None? <==> v !in classes
    ensures r.Some? ==> r.value < |classes| && classes[r.value] == v && v !in classes[..r.value]
  {
    if classes == [] then None
    else if classes[0] == v then Some(0)
    else match IndexOf(classes[1..], v)
      case None => None
      case Some(k) =>
        assert classes[..k + 1] == [classes[0]] + classes[1..][..k];
        Some(k + 1)
  }

  /**
   * `encoder.transform` on one cell: the code of a seen string. A value outside the
   * vocabulary, including a cell that is not a string, makes transform raise (None).
   */
  function Transform(classes: Classes, cell: Cell): (r: Option<nat>)
    ensures r.Some? <==> cell.StrVal? && cell.s in classes
    ensures r.Some? ==> r.value < |classes| && classes[r.value] == cell.s
  {
    match cell
    case StrVal(s) => IndexOf(classes, s)
    case _ => None
  }

  /** `encoder.inverse_transform` on one code: None when the code is not a position of `classes`. */
  function InverseTransform(classes: Classes, code: int): (r: Option<string>)
    ensures r.Some? <==> 0 <= code < |classes|
    ensures r.Some? ==> r.value in classes
  {
    if 0 <= code < |classes| then Some(classes[code]) else None
  }

  /** Decoding the code of a seen value gives that value back. */
  lemma DecodeAfterEncode(classes: Classes, cell: Cell)
    requires Transform(classes, cell).Some?
    ensures InverseTransform(classes, Transform(classes, cell).value) == Some(cell.s)
  {
  }

  /** On a fitted (duplicate-free) vocabulary, encoding a decoded code gives that code back. */
  lemma EncodeAfterDecode(classes: Classes, code: int)
    requires Distinct(classes)
    requires InverseTransform(classes, code).Some?
    ensures Transform(classes, StrVal(InverseTransform(classes, code).value)) == Some(code as nat)
  {
  }
}
