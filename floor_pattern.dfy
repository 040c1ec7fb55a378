/** The floor pattern of a facade (LowDetailBuilder.BuildTextures): the style units of a facade
    are unrolled into one entry per floor, the list is reversed, and floor r takes the entry at
    r modulo the pattern size. */
module FloorPattern {
  import opened Wrappers
  import opened Pixels
  import opened BuildingData
  import opened Sequences

  function Max0(k: int): nat {
    if k < 0 then 0 else k
  }

  /** k copies of v; none when k is not positive. */
  function Repeat(v: int, k: int): (r: seq<int>)
    ensures |r| == Max0(k)
    ensures forall i :: 0 <= i < |r| ==> r[i] == v
  {
    seq(Max0(k), _ => v)
  }

  /** The unreversed table of the first n units: unit i repeated Floors times. */
  function PatternReference(units: seq<StyleUnit>, n: nat): (r: seq<int>)
    requires n <= |units|
    ensures forall i :: 0 <= i < |r| ==> 0 <= r[i] < n
  {
    if n == 0 then [] else PatternReference(units, n - 1) + Repeat(n - 1, units[n - 1].floors)
  }

  /** floorPatternSize: the sum of the units' Floors, negative ones included. */
  function PatternSize(units: seq<StyleUnit>, n: nat): int
    requires n <= |units|
  {
    if n == 0 then 0 else PatternSize(units, n - 1) + units[n - 1].floors
  }

  /** The number of table entries: the sum of the units' Floors counted from 0. */
  function PositiveFloors(units: seq<StyleUnit>, n: nat): nat
    requires n <= |units|
  {
    if n == 0 then 0 else PositiveFloors(units, n - 1) + Max0(units[n - 1].floors)
  }

  /** facadePatternReference after its Reverse. */
  function PatternTable(units: seq<StyleUnit>): (r: seq<int>)
    ensures forall i :: 0 <= i < |r| ==> 0 <= r[i] < |units|
  {
    Reversed(PatternReference(units, |units|))
  }

  lemma {:induction false} PatternReferenceLength(units: seq<StyleUnit>, n: nat)
    requires n <= |units|
    ensures |PatternReference(units, n)| == PositiveFloors(units, n)
    ensures (forall i :: 0 <= i < n ==> units[i].floors >= 0) ==> PositiveFloors(units, n) == PatternSize(units, n)
  {
    if n > 0 {
      PatternReferenceLength(units, n - 1);
    }
  }

  /** The table has one entry per floor of every unit; when no unit has a negative Floors this
      is floorPatternSize. */
  lemma PatternTableLength(units: seq<StyleUnit>)
    ensures |PatternTable(units)| == PositiveFloors(units, |units|)
    ensures (forall i :: 0 <= i < |units| ==> units[i].floors >= 0) ==> |PatternTable(units)| == PatternSize(units, |units|)
  {
    PatternReferenceLength(units, |units|);
  }

  lemma RepeatCount(v: int, k: int, i: int)
    ensures multiset(Repeat(v, k))[i] == if i == v then Max0(k) else 0
  {
    if i == v {
      assert multiset(Repeat(v, k)) == multiset{} [v := Max0(k)] by {
        RepeatMultiset(v, Max0(k));
      }
    } else {
      assert i !in Repeat(v, k);
    }
  }

  lemma {:induction false} RepeatMultiset(v: int, k: nat)
    ensures multiset(Repeat(v, k)) == multiset{} [v := k]
  {
    if k > 0 {
      RepeatMultiset(v, k - 1);
      assert Repeat(v, k) == Repeat(v, k - 1) + [v];
    }
  }

  lemma {:induction false} PatternReferenceCount(units: seq<StyleUnit>, n: nat, i: int)
    requires n <= |units|
    ensures multiset(PatternReference(units, n))[i] == if 0 <= i < n then Max0(units[i].floors) else 0
  {
    if n > 0 {
      PatternReferenceCount(units, n - 1, i);
      RepeatCount(n - 1, units[n - 1].floors, i);
    }
  }

  /** Unit i occupies exactly Floors entries of the table (none for a unit with Floors <= 0). */
  lemma PatternTableCount(units: seq<StyleUnit>, i: int)
    requires 0 <= i < |units|
    ensures multiset(PatternTable(units))[i] == Max0(units[i].floors)
  {
    ReversedMultiset(PatternReference(units, |units|));
    PatternReferenceCount(units, |units|, i);
  }

  /** The table ends with the last unit's entries, so after the reversal floor 0 takes the last
      unit whenever that unit has a floor. */
  lemma FloorZeroUsesLastUnit(units: seq<StyleUnit>)
    requires |units| > 0 && units[|units| - 1].floors >= 1
    ensures |PatternTable(units)| > 0 && PatternTable(units)[0] == |units| - 1
  {
    var n := |units|;
    var s := PatternReference(units, n);
    assert s == PatternReference(units, n - 1) + Repeat(n - 1, units[n - 1].floors);
    assert s[|s| - 1] == n - 1;
  }

  /** Two units of two floors and one floor give the table [1, 0, 0]. */
  lemma TwoUnitExample(a: int, b: int)
    ensures PatternTable([StyleUnit(a, 2), StyleUnit(b, 1)]) == [1, 0, 0]
  {
    var units := [StyleUnit(a, 2), StyleUnit(b, 1)];
    assert PatternReference(units, 1) == [0, 0];
    assert PatternReference(units, 2) == [0, 0, 1];
  }

  /** The unit index floor r draws with, or None where the source raises: a pattern size of 0
      divides by zero, and a remainder past the table (possible only when some Floors is
      negative) indexes outside it. */
  function FloorStyleUnit(units: seq<StyleUnit>, r: nat): (u: Option<int>)
    ensures u.Some? ==> 0 <= u.value < |units|
  {
    var size := PatternSize(units, |units|);
    var table := PatternTable(units);
    if size == 0 then None
    else
      var modFloor := CsRem(r, size);
      if modFloor < |table| then Some(table[modFloor]) else None
  }

  /** With no negative Floors and at least one floor, floor r takes the table entry at r modulo
      the pattern size. */
  lemma FloorStyleAt(units: seq<StyleUnit>, r: nat)
    requires forall i :: 0 <= i < |units| ==> units[i].floors >= 0
    requires PatternSize(units, |units|) > 0
    ensures r % PatternSize(units, |units|) < |PatternTable(units)|
    ensures FloorStyleUnit(units, r) == Some(PatternTable(units)[r % PatternSize(units, |units|)])
  {
    var size := PatternSize(units, |units|);
    var table := PatternTable(units);
    PatternTableLength(units);
    assert |table| == size;
    CsRemNonNegative(r, size);
    var modFloor := r % size;
    assert 0 <= modFloor < |table|;
    assert CsRem(r, size) == modFloor;
    assert FloorStyleUnit(units, r) == Some(table[modFloor]);
  }

  /** With no negative Floors and at least one floor, every floor has a style, and the styles
      repeat with the pattern size as period. */
  lemma FloorStyleCyclic(units: seq<StyleUnit>, r: nat)
    requires forall i :: 0 <= i < |units| ==> units[i].floors >= 0
    requires PatternSize(units, |units|) > 0
    ensures FloorStyleUnit(units, r).Some?
    ensures FloorStyleUnit(units, r + PatternSize(units, |units|)) == FloorStyleUnit(units, r)
  {
    var size := PatternSize(units, |units|);
    var table := PatternTable(units);
    FloorStyleAt(units, r);
    FloorStyleAt(units, r + size);
    ModAddPeriod(r, size);
    var later, now := (r + size) % size, r % size;
    assert later == now;
    assert FloorStyleUnit(units, r + size) == Some(table[later]);
    assert FloorStyleUnit(units, r) == Some(table[now]);
  }

  /** A pattern size of 0 faults on every floor. */
  lemma EmptyPatternFaults(units: seq<StyleUnit>, r: nat)
    requires PatternSize(units, |units|) == 0
    ensures FloorStyleUnit(units, r) == None
  {
  }

  /** The facade design floor r is drawn with, or None where indexing the style or the facade
      list raises. */
  function FloorFacade(d: Data, units: seq<StyleUnit>, r: nat): Option<Facade> {
    match FloorStyleUnit(units, r)
    case None => None
    case Some(u) =>
      var styleId := units[u].styleId;
      if 0 <= styleId < |d.facades| then Some(d.facades[styleId]) else None
  }

  /** The loop that fills facadePatternReference, followed by its Reverse. */
  method BuildPatternTable(units: seq<StyleUnit>) returns (floorPatternSize: int, facadePatternReference: seq<int>)
    ensures floorPatternSize == PatternSize(units, |units|)
    ensures facadePatternReference == PatternTable(units)
  {
    floorPatternSize := 0;
    facadePatternReference := [];
    var patternCount := 0;
    while patternCount < |units|
      invariant 0 <= patternCount <= |units|
      invariant floorPatternSize == PatternSize(units, patternCount)
      invariant facadePatternReference == PatternReference(units, patternCount)
    {
      var styleUnit := units[patternCount];
      floorPatternSize := floorPatternSize + styleUnit.floors;
      ghost var before := facadePatternReference;
      var i := 0;
      while i < styleUnit.floors
        invariant 0 <= i <= Max0(styleUnit.floors)
        invariant facadePatternReference == before + Repeat(patternCount, i)
      {
        facadePatternReference := facadePatternReference + [patternCount];
        i := i + 1;
      }
      patternCount := patternCount + 1;
    }
    facadePatternReference := Reversed(facadePatternReference);
  }
}
