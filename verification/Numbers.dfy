/** Numbers that several modules need. */
module Numbers {
  const U32_MAX: nat := 0xFFFF_FFFF

  function Max(a: nat, b: nat): nat { if a > b then a else b }

  function Min(a: nat, b: nat): nat { if a < b then a else b }

  lemma Scale(a: real, x: real, y: real)
    requires a > 0.0 && x < y
    ensures a * x < a * y
  {
    var d := y - x;
    Positive(a, d);
    assert a * y == a * (x + d) == a * x + a * d;
  }

  lemma Positive(a: real, b: real)
    requires a > 0.0 && b > 0.0
    ensures a * b > 0.0
  {
  }
}
