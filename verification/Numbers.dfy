/** The little arithmetic that batches and pages need. */
module Numbers {

  function Min(a: nat, b: nat): nat {
    if a < b then a else b
  }

  function CeilDiv(n: nat, size: nat): nat
    requires size > 0
  {
    (n + size - 1) / size
  }

  lemma CeilDivCovers(n: nat, size: nat)
    requires size > 0
    ensures CeilDiv(n, size) * size >= n
  {
    var m := n + size - 1;
    assert m == (m / size) * size + m % size;
  }

  lemma TimesIsMonotonic(a: nat, b: nat, c: nat)
    requires a <= b
    ensures a * c <= b * c
  {
  }
}
