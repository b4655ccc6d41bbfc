/** Two functions on numbers that several modules use. */
module Numbers {
  function Min(a: nat, b: nat): nat {
    if a < b then a else b
  }

  function OneIf(b: bool): nat {
    if b then 1 else 0
  }
}
