/** Pixel buffers of the texture atlas, the writes made into them, and the integer helpers
    the atlas code relies on: Mathf.RoundToInt, Mathf.FloorToInt, Mathf.Clamp and C#'s `%`. */
module Pixels {

  newtype byte = x: int | 0 <= x < 256

  datatype Color32 = Color32(r: byte, g: byte, b: byte, a: byte)

  /** The colour of every pixel of a freshly allocated Color32[]. */
  const Clear: Color32 := Color32(0, 0, 0, 0)

  /** One assignment `colourArray[index] = colour`. */
  datatype Write = Write(index: int, colour: Color32)

  predicate WritesInBounds(ws: seq<Write>, size: int) {
    forall i :: 0 <= i < |ws| ==> 0 <= ws[i].index < size
  }

  /** The buffer after the writes, applied in order. */
  function ApplyWrites(s: seq<Color32>, ws: seq<Write>): (r: seq<Color32>)
    requires WritesInBounds(ws, |s|)
    ensures |r| == |s|
    decreases |ws|
  {
    if |ws| == 0 then s
    else
      var w := ws[|ws| - 1];
      ApplyWrites(s, ws[..|ws| - 1])[w.index := w.colour]
  }

  /** The position in ws of the last write to pixel k, or -1 when none writes it. */
  function LastWriteTo(ws: seq<Write>, k: int): (j: int)
    ensures -1 <= j < |ws|
    ensures j >= 0 ==> ws[j].index == k
    ensures forall i :: j < i < |ws| ==> ws[i].index != k
  {
    if |ws| == 0 then -1
    else if ws[|ws| - 1].index == k then |ws| - 1
    else LastWriteTo(ws[..|ws| - 1], k)
  }

  /** Applying writes in order leaves every pixel with the colour of the last write to it,
      and an untouched pixel with its old colour. */
  lemma {:induction false} ApplyWritesLastWins(s: seq<Color32>, ws: seq<Write>, k: int)
    requires WritesInBounds(ws, |s|) && 0 <= k < |s|
    ensures var j := LastWriteTo(ws, k);
            ApplyWrites(s, ws)[k] == if j < 0 then s[k] else ws[j].colour
    decreases |ws|
  {
    if |ws| > 0 {
      ApplyWritesLastWins(s, ws[..|ws| - 1], k);
    }
  }

  lemma WritesInBoundsAppend(a: seq<Write>, b: seq<Write>, size: int)
    ensures WritesInBounds(a + b, size) <==> WritesInBounds(a, size) && WritesInBounds(b, size)
  {
    if WritesInBounds(a, size) && WritesInBounds(b, size) {
      forall i | 0 <= i < |a + b| ensures 0 <= (a + b)[i].index < size {
        if i >= |a| {
          assert (a + b)[i] == b[i - |a|];
        }
      }
    }
    if WritesInBounds(a + b, size) {
      forall i | 0 <= i < |a| ensures 0 <= a[i].index < size {
        assert (a + b)[i] == a[i];
      }
      forall i | 0 <= i < |b| ensures 0 <= b[i].index < size {
        assert (a + b)[|a| + i] == b[i];
      }
    }
  }

  /** Writing a + b is writing a, then b. */
  lemma {:induction false} ApplyWritesAppend(s: seq<Color32>, a: seq<Write>, b: seq<Write>)
    requires WritesInBounds(a, |s|) && WritesInBounds(b, |s|)
    ensures WritesInBounds(a + b, |s|)
    ensures ApplyWrites(s, a + b) == ApplyWrites(ApplyWrites(s, a), b)
    decreases |b|
  {
    WritesInBoundsAppend(a, b, |s|);
    if |b| > 0 {
      var b' := b[..|b| - 1];
      assert (a + b)[..|a + b| - 1] == a + b';
      ApplyWritesAppend(s, a, b');
    } else {
      assert a + b == a;
    }
  }

  /** One more write at the end of a run of writes. */
  lemma ApplyWritesSnoc(s: seq<Color32>, a: seq<Write>, w: Write)
    requires WritesInBounds(a, |s|) && 0 <= w.index < |s|
    ensures WritesInBounds(a + [w], |s|)
    ensures ApplyWrites(s, a + [w]) == ApplyWrites(s, a)[w.index := w.colour]
  {
    WritesInBoundsAppend(a, [w], |s|);
    assert (a + [w])[..|a|] == a;
  }

  /** One write at the front of a run of writes. */
  lemma ApplyWritesCons(s: seq<Color32>, w: Write, rest: seq<Write>)
    requires 0 <= w.index < |s| && WritesInBounds(rest, |s|)
    ensures WritesInBounds([w] + rest, |s|)
    ensures ApplyWrites(s, [w] + rest) == ApplyWrites(s[w.index := w.colour], rest)
  {
    ApplyWritesAppend(s, [w], rest);
    assert [w][..0] == [];
  }

  /** Mathf.RoundToInt on an exact value: the nearest integer, halves rounded up. */
  function Round(x: real): (r: int)
    ensures x - 0.5 < r as real <= x + 0.5
  {
    (x + 0.5).Floor
  }

  /** Mathf.FloorToInt on an exact value. */
  function FloorInt(x: real): (r: int)
    ensures r as real <= x < r as real + 1.0
  {
    x.Floor
  }

  /** Mathf.Clamp: a value below min gives min, otherwise one above max gives max. */
  function Clamp(value: int, min: int, max: int): (r: int)
    ensures min <= max ==> min <= r <= max
    ensures min <= value <= max ==> r == value
    ensures r == value || r == min || r == max
  {
    if value < min then min else if value > max then max else value
  }

  function IntAbs(a: int): int { if a < 0 then -a else a }

  /** C#'s `%` on int: truncated division, so the remainder takes the sign of the dividend. */
  function CsRem(a: int, b: int): (r: int)
    requires b != 0
    ensures a >= 0 ==> 0 <= r < IntAbs(b)
    ensures a < 0 ==> -IntAbs(b) < r <= 0
    ensures (a - r) % IntAbs(b) == 0
  {
    var m := IntAbs(a) % IntAbs(b);
    CsRemDivides(a, IntAbs(b));
    if a >= 0 then m else -m
  }

  lemma CsRemDivides(a: int, n: int)
    requires n > 0
    ensures (a - (if a >= 0 then IntAbs(a) % n else -(IntAbs(a) % n))) % n == 0
  {
    var q := IntAbs(a) / n;
    assert IntAbs(a) == q * n + IntAbs(a) % n;
    if a >= 0 {
      assert a - IntAbs(a) % n == q * n;
    } else {
      assert a + IntAbs(a) % n == (-q) * n;
    }
    MultipleMod(if a >= 0 then q else -q, n);
  }

  lemma MultipleMod(q: int, n: int)
    requires n > 0
    ensures (q * n) % n == 0
  {
    var d, r := (q * n) / n, (q * n) % n;
    assert q * n == d * n + r;
    assert (q - d) * n == r;
    assert q - d >= 1 ==> (q - d) * n >= n;
    assert q - d <= -1 ==> (q - d) * n <= -n;
  }

  /** Euclidean remainders are unique: a quotient and a remainder in [0, n) that rebuild a fix
      a % n. */
  lemma ModUnique(a: int, n: int, q: int, m: int)
    requires n > 0 && 0 <= m < n && a == q * n + m
    ensures a % n == m
  {
    var d, r := a / n, a % n;
    assert (q - d) * n == r - m;
    assert q - d >= 1 ==> (q - d) * n >= n;
    assert q - d <= -1 ==> (q - d) * n <= -n;
  }

  /** Adding the divisor does not change the remainder. */
  lemma ModAddPeriod(a: int, n: int)
    requires n > 0
    ensures (a + n) % n == a % n
  {
    assert a + n == (a / n + 1) * n + a % n;
    ModUnique(a + n, n, a / n + 1, a % n);
  }

  /** On a non-negative dividend and a positive divisor C#'s `%` agrees with Dafny's. */
  lemma CsRemNonNegative(a: int, b: int)
    requires a >= 0 && b > 0
    ensures CsRem(a, b) == a % b
  {
  }

  lemma NonNegativeProduct(a: int, b: int)
    ensures a >= 0 && b >= 0 ==> a * b >= 0
  {
  }

  /** Multiplying by a non-negative factor keeps the order. */
  lemma MultiplyMonotone(a: int, b: int, c: int)
    requires a <= b && c >= 0
    ensures a * c <= b * c
  {
    assert b * c - a * c == (b - a) * c;
    NonNegativeProduct(b - a, c);
  }

  /** A row-major index of a cell inside a w x h grid is below w * h. */
  lemma RowMajorBelow(x: int, y: int, w: int, h: int)
    requires 0 <= x < w && 0 <= y < h
    ensures 0 <= x + y * w < w * h
  {
    assert y * w <= (h - 1) * w by { MultiplyMonotone(y, h - 1, w); }
    assert (h - 1) * w == h * w - w;
  }
}
