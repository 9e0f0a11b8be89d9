/** Numeric conventions of fb.cpp, stated over exact reals. */
module Numbers {

  /** The program's own approximation of pi (fb.cpp:18), used by roll and crawl. */
  const Pi: real := 3.14159

  /** C's conversion of a floating value to `int`: truncation toward zero. */
  function TruncToInt(x: real): (r: int)
    ensures x >= 0.0 ==> 0 <= r && r as real <= x < r as real + 1.0
    ensures x < 0.0 ==> r <= 0 && r as real - 1.0 < x <= r as real
  {
    if x >= 0.0 then x.Floor else -((-x).Floor)
  }

  function Min(a: real, b: real): real { if a <= b then a else b }

  function Max(a: real, b: real): real { if a <= b then b else a }
}
