/** What the Stage 0 contracts share (evaluator/stage0_contract.py `_count`, `_ids`). */
module Stage0Contract {
  import opened Ordering

  const MAX_INTEGER: int := 9007199254740991

  predicate IsCount(n: int) { 0 <= n <= MAX_INTEGER }

  /** Non-empty text, in byte order, without repeats. */
  predicate IdList(values: seq<string>) {
    (forall v :: v in values ==> v != "") && values == Sort(values, TextLe) && Distinct(values)
  }
}
