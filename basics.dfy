/**
 Values shared by both overlay versions: the optional value, the dynamic
 argument a Python setter receives, the outcome of a setter call, colors,
 rectangles, points, and Python's `int()` conversion of a number.
 */
module Basics {

  datatype Option<+T> = None | Some(value: T)

  /** A setter argument as Python sees it: a number (an `int` or a `float`) or anything else. */
  datatype Arg = Num(value: real) | NonNumeric

  /** How a setter call ends: it returns, or it raises `ValueError`. */
  datatype Outcome = Returned | ValueError

  /**
   A `QColor`: an RGB color built from three channels, or the invalid color
   (the default-constructed one, or one parsed from a malformed name).
   */
  datatype Color = Rgb(red: int, green: int, blue: int) | InvalidColor {
    /** `QColor.isValid()`: Qt refuses channels outside 0..255. */
    predicate IsValid()
      ensures IsValid() ==> Rgb? && 0 <= red <= 255 && 0 <= green <= 255 && 0 <= blue <= 255
      ensures Rgb? && 0 <= red <= 255 && 0 <= green <= 255 && 0 <= blue <= 255 ==> IsValid()
      ensures this == InvalidColor ==> !IsValid()
    {
      Rgb? && 0 <= red <= 255 && 0 <= green <= 255 && 0 <= blue <= 255
    }
  }

  const White: Color := Rgb(255, 255, 255)

  /** A `QRect` / `QRectF` with integer coordinates: top-left corner, width and height. */
  datatype Rect = Rect(x: int, y: int, width: int, height: int) {
    function Right(): int { x + width }
    function Bottom(): int { y + height }

    /** Both rectangles are proper (no negative size) and every point of this one lies in `other`. */
    predicate Within(other: Rect) {
      && 0 <= width && 0 <= height && 0 <= other.width && 0 <= other.height
      && other.x <= x && other.y <= y && Right() <= other.Right() && Bottom() <= other.Bottom()
    }
  }

  datatype Point = Point(x: int, y: int)

  function Min(a: int, b: int): int { if a <= b then a else b }
  function Max(a: int, b: int): int { if a >= b then a else b }

  /**
   Python's `int(x)` on a finite number: truncation toward zero, so that
   `int(1.9) == 1` and `int(-1.9) == -1`.
   */
  function Trunc(x: real): (r: int)
    ensures 0.0 <= x ==> 0 <= r && r as real <= x < r as real + 1.0
    ensures x < 0.0 ==> r <= 0 && r as real - 1.0 < x <= r as real
  {
    if x >= 0.0 then x.Floor else -((-x).Floor)
  }

  /** `int()` keeps an integer as it is. */
  lemma TruncOfInt(n: int)
    ensures Trunc(n as real) == n
  {
  }

  /** Scaling by a non-negative factor keeps the order of two numbers. */
  lemma ScaleMonotone(c: real, x: real, y: real)
    requires 0.0 <= c && x <= y
    ensures c * x <= c * y
  {
    assert c * y - c * x == c * (y - x);
  }

  /** Scaling by a non-negative whole number keeps the order of two numbers. */
  lemma ScaleIntMonotone(n: int, x: real, y: real)
    requires 0 <= n && x <= y
    ensures n as real * x <= n as real * y
  {
    ScaleMonotone(n as real, x, y);
  }

  /** `int()` is monotone: a larger number never truncates to a smaller integer. */
  lemma TruncMonotone(x: real, y: real)
    requires x <= y
    ensures Trunc(x) <= Trunc(y)
  {
    if 0.0 <= x {
      assert x.Floor <= y.Floor;
    } else if y < 0.0 {
      assert (-y).Floor <= (-x).Floor;
    }
  }
}
