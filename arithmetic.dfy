/** Facts about multiplication and Euclidean division by a positive
    number that the page offsets, page counts and image indices rely on. */
module Arithmetic {

  /** The sign facts about a product with a positive factor that the page
      arithmetic needs. */
  lemma MulSign(k: int, d: int)
    requires d > 0
    ensures k >= 1 ==> k * d >= d
    ensures k == 0 ==> k * d == 0
    ensures k <= -1 ==> k * d <= -d
  {
  }

  lemma DivModUnique(x: int, d: int, q: int, r: int)
    requires d > 0 && 0 <= r < d && x == q * d + r
    ensures x / d == q && x % d == r
  {
    var q', r' := x / d, x % d;
    assert (q - q') * d == r' - r;
    MulSign(q - q', d);
  }

  /** Adding one commutes with taking the remainder. */
  lemma ModSucc(a: int, d: int)
    requires d > 0
    ensures (a % d + 1) % d == (a + 1) % d
  {
    var q, r := a / d, a % d;
    if r + 1 < d {
      DivModUnique(a + 1, d, q, r + 1);
      DivModUnique(r + 1, d, 0, r + 1);
    } else {
      DivModUnique(a + 1, d, q + 1, 0);
      DivModUnique(r + 1, d, 1, 0);
    }
  }
}
