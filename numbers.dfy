/** Integer helpers shared by the page window and the fetch handling. */
module Numbers {
  function Max(a: int, b: int): int { if a >= b then a else b }
  function Min(a: int, b: int): int { if a <= b then a else b }
}
