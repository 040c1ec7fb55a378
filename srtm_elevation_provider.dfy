/** SrtmElevationProvider: the SRTM data cell that answers an elevation query. A coordinate
    pair is reduced to the integer key of its one-degree cell, the provider's list of loaded
    cells is searched for that key, and on a miss the cell file named after the key is loaded
    and appended to the list. */
module SrtmElevation {
  import opened Wrappers

  /** The integer part of a coordinate in degrees: floor(|x|) with the sign of x restored, that
      is, truncation toward zero. */
  function CellKey(x: real): (k: int)
    ensures x >= 0.0 ==> k >= 0 && k as real <= x < k as real + 1.0
    ensures x < 0.0 ==> k <= 0 && k as real - 1.0 < x <= k as real
  {
    var magnitude := (if x < 0.0 then -x else x).Floor;
    if x < 0.0 then -magnitude else magnitude
  }

  /** Coordinates strictly between -1 and 1 share the key 0, whatever their sign. */
  lemma KeyOfSmallCoordinate(x: real)
    requires -1.0 < x < 1.0
    ensures CellKey(x) == 0
  {
  }

  /** A loaded cell: its key and the name of the file it was read from. The samples of the file
      (SrtmDataCell) are not part of this model. */
  datatype DataCell = DataCell(latitude: int, longitude: int, filename: string)

  predicate Matches(cell: DataCell, cellLatitude: int, cellLongitude: int) {
    cell.latitude == cellLatitude && cell.longitude == cellLongitude
  }

  /** No two loaded cells have the same key. */
  predicate DistinctKeys(cells: seq<DataCell>) {
    forall i, j :: 0 <= i < j < |cells| ==> !Matches(cells[j], cells[i].latitude, cells[i].longitude)
  }

  // ----- The file name: {N|S}{|lat|:D2}{E|W}{|lon|:D3}.hgt -----

  function DigitChar(d: nat): (c: char)
    requires d < 10
    ensures '0' <= c <= '9'
  {
    ('0' as int + d) as char
  }

  predicate AllDigits(s: string) {
    forall i :: 0 <= i < |s| ==> '0' <= s[i] <= '9'
  }

  /** The decimal form of n without leading zeros ("0" for zero). */
  function Digits(n: nat): (s: string)
    ensures |s| >= 1 && AllDigits(s)
    ensures n < 10 ==> |s| == 1
    ensures 10 <= n < 100 ==> |s| == 2
    ensures 100 <= n < 1000 ==> |s| == 3
    decreases n
  {
    if n < 10 then [DigitChar(n)] else Digits(n / 10) + [DigitChar(n % 10)]
  }

  /** The "Dw" format of a non-negative number: its digits, left-padded with zeros to w. */
  function PadDigits(n: nat, w: nat): (s: string)
    ensures AllDigits(s) && |s| >= w
  {
    var digits := Digits(n);
    seq(if w > |digits| then w - |digits| else 0, _ => '0') + digits
  }

  function IntAbs(k: int): nat {
    if k < 0 then -k else k
  }

  /** The name of the file holding cell (cellLatitude, cellLongitude). The hemisphere letters
      come from the signs of the integer keys, so key 0 is always "N" and "E". */
  function CellFilename(cellLatitude: int, cellLongitude: int): (name: string)
    ensures |name| >= 11
    ensures name[0] == (if cellLatitude < 0 then 'S' else 'N')
    ensures name[|name| - 4..] == ".hgt"
  {
    [if cellLatitude < 0 then 'S' else 'N'] + PadDigits(IntAbs(cellLatitude), 2)
    + [if cellLongitude < 0 then 'W' else 'E'] + PadDigits(IntAbs(cellLongitude), 3)
    + ".hgt"
  }

  /** The value of a string of decimal digits. */
  function ValueOf(s: string): nat
    requires AllDigits(s)
    decreases |s|
  {
    if |s| == 0 then 0 else ValueOf(s[..|s| - 1]) * 10 + (s[|s| - 1] as int - '0' as int)
  }

  /** The reference reading of a cell file name: the key it names, or None for a name of a
      different form. */
  function ParseCellFilename(name: string): Option<(int, int)> {
    if |name| == 11 && name[0] in "NS" && name[3] in "EW" && name[7..] == ".hgt"
       && AllDigits(name[1..3]) && AllDigits(name[4..7])
    then
      var lat: int := ValueOf(name[1..3]);
      var lon: int := ValueOf(name[4..7]);
      Some((if name[0] == 'S' then -lat else lat, if name[3] == 'W' then -lon else lon))
    else None
  }

  lemma {:induction false} ValueOfDigits(n: nat)
    ensures ValueOf(Digits(n)) == n
    decreases n
  {
    if n >= 10 {
      var s := Digits(n);
      ValueOfDigits(n / 10);
      assert s[..|s| - 1] == Digits(n / 10);
    }
  }

  lemma {:induction false} ValueOfZeros(k: nat)
    ensures ValueOf(seq(k, _ => '0')) == 0
  {
    if k > 0 {
      assert seq(k, _ => '0')[..k - 1] == seq(k - 1, _ => '0');
      ValueOfZeros(k - 1);
    }
  }

  /** Leading zeros do not change the value. */
  lemma {:induction false} ValueOfZerosPrefix(k: nat, s: string)
    requires AllDigits(s)
    ensures ValueOf(seq(k, _ => '0') + s) == ValueOf(s)
    decreases |s|
  {
    var z := seq(k, _ => '0');
    if |s| == 0 {
      assert z + s == z;
      ValueOfZeros(k);
    } else {
      assert (z + s)[..|z + s| - 1] == z + s[..|s| - 1];
      ValueOfZerosPrefix(k, s[..|s| - 1]);
    }
  }

  lemma PadDigitsValue(n: nat, w: nat)
    ensures ValueOf(PadDigits(n, w)) == n
    ensures w == 2 && n < 100 ==> |PadDigits(n, w)| == 2
    ensures w == 3 && n < 1000 ==> |PadDigits(n, w)| == 3
  {
    var digits := Digits(n);
    ValueOfZerosPrefix(if w > |digits| then w - |digits| else 0, digits);
    ValueOfDigits(n);
  }

  /** For the keys of real coordinates (latitude below 100 and longitude below 1000 in
      magnitude) the file name names exactly its cell, so distinct cells never share a file. */
  lemma FilenameNamesCell(cellLatitude: int, cellLongitude: int)
    requires -100 < cellLatitude < 100 && -1000 < cellLongitude < 1000
    ensures ParseCellFilename(CellFilename(cellLatitude, cellLongitude)) == Some((cellLatitude, cellLongitude))
  {
    var lat := PadDigits(IntAbs(cellLatitude), 2);
    var lon := PadDigits(IntAbs(cellLongitude), 3);
    PadDigitsValue(IntAbs(cellLatitude), 2);
    PadDigitsValue(IntAbs(cellLongitude), 3);
    var name := CellFilename(cellLatitude, cellLongitude);
    assert name[1..3] == lat;
    assert name[4..7] == lon;
    assert name[7..] == ".hgt";
  }

  lemma FilenameInjective(a: int, b: int, a': int, b': int)
    requires -100 < a < 100 && -1000 < b < 1000 && -100 < a' < 100 && -1000 < b' < 1000
    requires CellFilename(a, b) == CellFilename(a', b')
    ensures a == a' && b == b'
  {
    FilenameNamesCell(a, b);
    FilenameNamesCell(a', b');
  }

  /** A coordinate just south of the equator and just west of the prime meridian is looked up in
      the northern, eastern file of cell (0, 0). */
  lemma NearZeroUsesNorthEastFile(latitude: real, longitude: real)
    requires -1.0 < latitude < 0.0 && -1.0 < longitude < 0.0
    ensures CellFilename(CellKey(latitude), CellKey(longitude)) == "N00E000.hgt"
  {
    assert Digits(0) == "0";
    assert PadDigits(0, 2) == "00";
    assert PadDigits(0, 3) == "000";
  }

  // ----- The cache of loaded cells -----

  /** The first loaded cell with the given key, if any. */
  function FindCell(cells: seq<DataCell>, cellLatitude: int, cellLongitude: int): (r: Option<nat>)
    ensures r.Some? ==> r.value < |cells| && Matches(cells[r.value], cellLatitude, cellLongitude)
                        && forall j :: 0 <= j < r.value ==> !Matches(cells[j], cellLatitude, cellLongitude)
    ensures r.None? ==> forall j :: 0 <= j < |cells| ==> !Matches(cells[j], cellLatitude, cellLongitude)
    decreases |cells|
  {
    if |cells| == 0 then None
    else if Matches(cells[0], cellLatitude, cellLongitude) then Some(0)
    else match FindCell(cells[1..], cellLatitude, cellLongitude)
      case None => None
      case Some(i) => Some(i + 1)
  }

  /** GetElevation on the loaded cells: the cell that answers and the cells afterwards; None
      where the source raises because the file of the missing cell does not exist. */
  function Lookup(cells: seq<DataCell>, latitude: real, longitude: real, fileExists: string -> bool)
    : (r: (Option<DataCell>, seq<DataCell>))
    ensures FindCell(cells, CellKey(latitude), CellKey(longitude)).Some? ==>
              r.1 == cells && r.0 == Some(cells[FindCell(cells, CellKey(latitude), CellKey(longitude)).value])
    ensures FindCell(cells, CellKey(latitude), CellKey(longitude)).None? ==>
              var name := CellFilename(CellKey(latitude), CellKey(longitude));
              if fileExists(name) then r.0 == Some(DataCell(CellKey(latitude), CellKey(longitude), name)) && r.1 == cells + [r.0.value]
              else r.0 == None && r.1 == cells
  {
    var cellLatitude := CellKey(latitude);
    var cellLongitude := CellKey(longitude);
    match FindCell(cells, cellLatitude, cellLongitude)
    case Some(i) => (Some(cells[i]), cells)
    case None =>
      var filename := CellFilename(cellLatitude, cellLongitude);
      if !fileExists(filename) then (None, cells)
      else
        var dataCell := DataCell(cellLatitude, cellLongitude, filename);
        (Some(dataCell), cells + [dataCell])
  }

  /** The cell that answers has the key of the queried coordinates, and loading keeps the keys
      distinct. */
  lemma LookupKeepsKeysDistinct(cells: seq<DataCell>, latitude: real, longitude: real, fileExists: string -> bool)
    requires DistinctKeys(cells)
    ensures DistinctKeys(Lookup(cells, latitude, longitude, fileExists).1)
    ensures Lookup(cells, latitude, longitude, fileExists).0.Some? ==>
              Matches(Lookup(cells, latitude, longitude, fileExists).0.value, CellKey(latitude), CellKey(longitude))
  {
  }

  /** A second query of the same cell finds it loaded and changes nothing. */
  lemma SecondLookupHits(cells: seq<DataCell>, latitude: real, longitude: real, fileExists: string -> bool)
    requires Lookup(cells, latitude, longitude, fileExists).0.Some?
    ensures var (cell, cells') := Lookup(cells, latitude, longitude, fileExists);
            Lookup(cells', latitude, longitude, fileExists) == (cell, cells')
  {
    var (cell, cells') := Lookup(cells, latitude, longitude, fileExists);
    var key := (CellKey(latitude), CellKey(longitude));
    if FindCell(cells, key.0, key.1).None? {
      assert Matches(cells'[|cells|], key.0, key.1);
      assert FindCell(cells', key.0, key.1) == Some(|cells|);
    }
  }

  /** The provider; File.Exists on the data directory is the parameter fileExists of each
      query. */
  class SrtmElevationProvider {
    var dataCells: seq<DataCell>

    predicate Valid()
      reads this
    {
      DistinctKeys(dataCells)
    }

    constructor ()
      ensures Valid() && dataCells == []
    {
      dataCells := [];
    }

    /** GetElevation(latitude, longitude): the cell whose samples answer the query, or None
        where the source raises because the missing cell's file does not exist. */
    method GetElevation(latitude: real, longitude: real, fileExists: string -> bool) returns (cell: Option<DataCell>)
      requires Valid()
      modifies this
      ensures Valid()
      ensures (cell, dataCells) == Lookup(old(dataCells), latitude, longitude, fileExists)
    {
      LookupKeepsKeysDistinct(dataCells, latitude, longitude, fileExists);
      var magnitude := if latitude < 0.0 then -latitude else latitude;
      var cellLatitude := magnitude.Floor;
      if latitude < 0.0 {
        cellLatitude := cellLatitude * -1;
      }
      magnitude := if longitude < 0.0 then -longitude else longitude;
      var cellLongitude := magnitude.Floor;
      if longitude < 0.0 {
        cellLongitude := cellLongitude * -1;
      }
      assert cellLatitude == CellKey(latitude) && cellLongitude == CellKey(longitude);
      for i := 0 to |dataCells|
        invariant forall j :: 0 <= j < i ==> !Matches(dataCells[j], cellLatitude, cellLongitude)
      {
        if dataCells[i].latitude == cellLatitude && dataCells[i].longitude == cellLongitude {
          assert FindCell(dataCells, cellLatitude, cellLongitude) == Some(i);
          return Some(dataCells[i]);
        }
      }
      var filename := CellFilename(cellLatitude, cellLongitude);
      if !fileExists(filename) {
        return None;
      }
      var dataCell := DataCell(cellLatitude, cellLongitude, filename);
      dataCells := dataCells + [dataCell];
      cell := Some(dataCell);
    }
  }
}
