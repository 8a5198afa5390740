/** The image carousel index of ListingDetails and CardListing: the previous and next arrows
    move the current index by one and wrap around at both ends. */
module Carousel {

  import opened Common

  /** `prev === 0 ? count - 1 : prev - 1`. */
  function Prev(i: int, count: int): (j: int)
    ensures 0 <= i < count ==> 0 <= j < count
    ensures i == 0 ==> j == count - 1
    ensures 0 < i ==> j == i - 1
  {
    if i == 0 then count - 1 else i - 1
  }

  /** `prev === count - 1 ? 0 : prev + 1`. */
  function Next(i: int, count: int): (j: int)
    ensures 0 <= i < count ==> 0 <= j < count
    ensures i == count - 1 ==> j == 0
    ensures i != count - 1 ==> j == i + 1
  {
    if i == count - 1 then 0 else i + 1
  }

  /** Going back and then forward (or forward and then back) returns to the same image. */
  lemma PrevNextInverse(i: int, count: int)
    requires 0 <= i < count
    ensures Next(Prev(i, count), count) == i
    ensures Prev(Next(i, count), count) == i
  {
  }

  /** Starting anywhere, `count` steps forward come back to the start: every image is shown. */
  function NextN(i: int, count: int, n: nat): int
    decreases n
  {
    if n == 0 then i else NextN(Next(i, count), count, n - 1)
  }

  lemma {:induction false} NextNOffset(i: int, count: int, n: nat)
    requires 0 <= i < count
    ensures NextN(i, count, n) == (i + n) % count
    decreases n
  {
    if n > 0 {
      var j := Next(i, count);
      NextNOffset(j, count, n - 1);
      assert j == (i + 1) % count;
      ModAddOne(i + 1, n - 1, count);
    }
  }

  lemma ModAddOne(a: int, m: int, count: int)
    requires count > 0
    ensures (a % count + m) % count == (a + m) % count
  {
    assert a == count * (a / count) + a % count;
    assert a % count + m == (a + m) + count * (-(a / count));
    ModShift(a + m, -(a / count), count);
  }

  /** Starting anywhere, `count` steps forward come back to the start. */
  lemma NextCycle(i: int, count: int)
    requires 0 <= i < count
    ensures NextN(i, count, count) == i
  {
    NextNOffset(i, count, count);
    ModShift(i, 1, count);
    DivUnique(i, count, 0, i);
  }

  /** The number of forward steps from image `i` to image `k`. */
  function StepsTo(i: int, k: int, count: int): (n: nat)
    requires count > 0
    ensures n < count
  {
    (k - i) % count
  }

  /** Every image is reached from every other in fewer than `count` forward steps. */
  lemma NextReaches(i: int, k: int, count: int)
    requires 0 <= i < count && 0 <= k < count
    ensures NextN(i, count, StepsTo(i, k, count)) == k
  {
    var s := StepsTo(i, k, count);
    NextNOffset(i, count, s);
    ModAddOne(k - i, i, count);
    assert i + s == (k - i) % count + i;
    DivUnique(k, count, 0, k);
  }
}
