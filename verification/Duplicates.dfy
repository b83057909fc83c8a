/**
  `verify_duplicate`: when two rows count as the same printed row. The string
  similarity is a parameter; all the program's default relies on is that it is a
  fraction that reaches 1 exactly on equal strings.
 */
module Duplicates {
  import opened Prelude
  import opened ReceiptModel
  import opened TextKeys

  datatype RowKey = RowKey(name: string, quantity: real, total: real)

  function KeyOf(item: LineItem): RowKey
  {
    RowKey(NormalizeRowName(item.description), item.quantity, item.totalPrice)
  }

  predicate SameRow(first: LineItem, second: LineItem)
  {
    !Blank(first.description) && KeyOf(first) == KeyOf(second)
  }

  ghost predicate IsSimilarity(ratio: (string, string) -> real)
  {
    forall a, b :: 0.0 <= ratio(a, b) <= 1.0 && (ratio(a, b) == 1.0 <==> a == b)
  }

  datatype ToleranceError = InvalidTolerances

  function VerifyDuplicate(
    first: LineItem, second: LineItem, ratio: (string, string) -> real,
    nameSimilarity: real := 1.0, quantityTolerance: real := 0.0, totalTolerance: real := 0.0)
    : Result<bool, ToleranceError>
  {
    if !(0.0 <= nameSimilarity <= 1.0) || quantityTolerance < 0.0 || totalTolerance < 0.0 then
      Err(InvalidTolerances)
    else
      var left := NormalizeRowName(first.description);
      var right := NormalizeRowName(second.description);
      Ok(left != "" && right != ""
         && ratio(left, right) >= nameSimilarity
         && Abs(first.quantity - second.quantity) <= quantityTolerance
         && Abs(first.totalPrice - second.totalPrice) <= totalTolerance)
  }

  /** With the defaults the check is equality of normalised name, quantity and
      line total of rows that have a name, and it cannot raise. */
  lemma DefaultsMeanSameRow(first: LineItem, second: LineItem, ratio: (string, string) -> real)
    requires IsSimilarity(ratio)
    ensures VerifyDuplicate(first, second, ratio) == Ok(SameRow(first, second))
  {
    NormalizersAgree(first.description);
    EmptyKeyIsBlank(first.description);
    var left, right := NormalizeRowName(first.description), NormalizeRowName(second.description);
    assert 0.0 <= ratio(left, right) <= 1.0;
  }
}
