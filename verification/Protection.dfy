/** Where a protective stop stands: 15% of the entry price away, on the losing side, to the cent. */
module Protection {
  import opened Types
  import opened Guards

  /** Within half a cent of 85% of the entry for a long, and of 115% for a short. */
  predicate Protects(long: bool, entry: real, trigger: real) {
    Abs(trigger - (if long then 0.85 else 1.15) * entry) <= 0.005
  }

  lemma StopProtects(long: bool, entry: real)
    ensures Protects(long, entry, StopPrice(long, entry))
  {
  }

  /** Such a stop is on the losing side of any entry of four cents or more, where half a cent is less than 15% of it. */
  lemma OnTheLosingSide(long: bool, entry: real, trigger: real)
    requires Protects(long, entry, trigger) && 0.15 * entry > 0.005
    ensures if long then trigger < entry else trigger > entry
  {
  }
}
