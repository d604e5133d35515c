/**
 * Decoding of the RMC ("Recommended Minimum") sentence of NMEA 0183 as the
 * plot view does it: test for "RMC", split on commas, require the status
 * field to be "A", cut latitude and longitude into degrees and minutes at
 * the position of the point in the latitude field, apply the hemisphere
 * letters.
 */
module Nmea {
  import opened Wrappers
  import opened Text

  /** All pieces of `s` between commas, empty ones included, in order. */
  function Pieces(s: string): (f: seq<string>)
    ensures |f| >= 1
    ensures forall i :: 0 <= i < |f| ==> ',' !in f[i]
    decreases |s|
  {
    var k := IndexOf(s, ',');
    if k < 0 then [s]
    else
      assert forall j :: 0 <= j < k ==> s[..k][j] != ',';
      [s[..k]] + Pieces(s[k + 1..])
  }

  /** The pieces put back together with a comma between neighbours. */
  function Join(f: seq<string>): string
    requires |f| >= 1
  {
    if |f| == 1 then f[0] else f[0] + "," + Join(f[1..])
  }

  /** Splitting loses nothing: the pieces join back into the text. */
  lemma {:induction false} JoinPieces(s: string)
    ensures Join(Pieces(s)) == s
    decreases |s|
  {
    var k := IndexOf(s, ',');
    if k >= 0 {
      var head, tail := s[..k], s[k + 1..];
      JoinPieces(tail);
      JoinCons(head, Pieces(tail));
      Rejoin(s, k);
    }
  }

  /** A text is the part before a comma, the comma and the part after it. */
  lemma Rejoin(s: string, k: int)
    requires 0 <= k < |s| && s[k] == ','
    ensures s == s[..k] + "," + s[k + 1..]
  {
    assert s[..k + 1] == s[..k] + ",";
  }

  lemma JoinCons(a: string, f: seq<string>)
    requires |f| >= 1
    ensures Join([a] + f) == a + "," + Join(f)
  {
    assert ([a] + f)[1..] == f;
  }

  /** And joining loses nothing: comma-free pieces come back from the joined text. */
  lemma {:induction false} PiecesJoin(f: seq<string>)
    requires |f| >= 1
    requires forall i :: 0 <= i < |f| ==> ',' !in f[i]
    ensures Pieces(Join(f)) == f
  {
    if |f| > 1 {
      PiecesCons(f[0], Join(f[1..]));
      PiecesJoin(f[1..]);
      assert f == [f[0]] + f[1..];
    }
  }

  /** A comma-free piece followed by a comma is split off first. */
  lemma PiecesCons(a: string, b: string)
    requires ',' !in a
    ensures Pieces(a + "," + b) == [a] + Pieces(b)
  {
    var s := a + "," + b;
    assert forall j :: 0 <= j < |a| ==> a[j] != ',';
    IndexOfAbsent(a, b, ',');
    assert s[..|a|] == a;
    assert s[|a| + 1..] == b;
  }

  /** The list without its trailing empty strings. */
  function DropTrailingEmpty(f: seq<string>): (r: seq<string>)
    ensures |r| <= |f| && r == f[..|r|]
    ensures |r| == 0 || r[|r| - 1] != ""
    ensures forall i :: |r| <= i < |f| ==> f[i] == ""
  {
    if |f| > 0 && f[|f| - 1] == "" then DropTrailingEmpty(f[..|f| - 1]) else f
  }

  /**
   * `s.split(",")` of java.lang.String: a text without a comma is its own
   * single field; otherwise the pieces between commas with the trailing
   * empty ones removed.
   */
  function Split(s: string): seq<string>
  {
    if IndexOf(s, ',') < 0 then [s] else DropTrailingEmpty(Pieces(s))
  }

  /**
   * What `split` keeps: a prefix of the pieces, where everything dropped is
   * empty and (when there is a comma) the last field kept is not.
   */
  lemma SplitKeepsPrefix(s: string)
    ensures var f, p := Split(s), Pieces(s);
      |f| <= |p| && f == p[..|f|] && (forall i :: |f| <= i < |p| ==> p[i] == "")
    ensures ',' in s ==> |Split(s)| == 0 || Split(s)[|Split(s)| - 1] != ""
  {
  }

  /**
   * Splitting the join of two or more comma-free fields, the last of them
   * not empty, gives exactly those fields.
   */
  lemma SplitJoin(f: seq<string>)
    requires |f| >= 2
    requires forall i :: 0 <= i < |f| ==> ',' !in f[i]
    requires f[|f| - 1] != ""
    ensures Split(Join(f)) == f
  {
    PiecesJoin(f);
    assert forall j :: 0 <= j < |f[0]| ==> f[0][j] != ',';
    IndexOfAbsent(f[0], Join(f[1..]), ',');
  }

  /** The exception Java raises while decoding: which field, which cut, which text. */
  datatype Fault =
    | MissingField(index: nat)       // ArrayIndexOutOfBoundsException
    | CutOutOfRange(field: nat)      // StringIndexOutOfBoundsException from substring
    | NotANumber(text: string)       // NumberFormatException from parseDouble

  /** The outcome of one sentence. */
  datatype Decoded =
    | NotRmc                          // no "RMC" in the message: silently ignored
    | NotValid                        // status field is not "A": logged and dropped
    | Malformed(fault: Fault)         // an exception escapes the decoder
    | Fix(lat: real, lon: real)       // a position in signed degrees

  datatype Reading = Read(value: real) | Failed(fault: Fault)

  /** `v * -1` when the hemisphere letter asks for it. */
  function Hemisphere(v: real, negate: bool): real {
    if negate then v * -1.0 else v
  }

  /**
   * A `dddmm.mmm` field cut at `cut`: the text before the cut is degrees,
   * the text from the cut on is minutes, and the value is
   * degrees + minutes / 60.
   */
  function Coordinate(field: string, cut: int, index: nat): Reading {
    if cut < 0 || cut > |field| then Failed(CutOutOfRange(index))
    else
      match ParseDecimal(field[..cut])
      case None => Failed(NotANumber(field[..cut]))
      case Some(degrees) =>
        match ParseDecimal(field[cut..])
        case None => Failed(NotANumber(field[cut..]))
        case Some(minutes) => Read(degrees + minutes / 60.0)
  }

  /** A coordinate reads exactly when both halves of the cut are numbers. */
  lemma CoordinateRead(field: string, cut: int, index: nat, v: real)
    ensures Coordinate(field, cut, index) == Read(v) <==>
      && 0 <= cut <= |field|
      && ParseDecimal(field[..cut]).Some?
      && ParseDecimal(field[cut..]).Some?
      && v == ParseDecimal(field[..cut]).value + ParseDecimal(field[cut..]).value / 60.0
  {
  }

  /** The split point of both coordinate fields: two before the point of field 3. */
  function Cut(f: seq<string>): int
    requires |f| > 3
  {
    IndexOf(f[3], '.') - 2
  }

  /**
   * The body of `setPoint` after the split: status in field 2, latitude in
   * fields 3 and 4, longitude in fields 5 and 6, both cut at `Cut(f)`.
   * Latitude is negated for "S", longitude for "E".
   */
  function DecodeFields(f: seq<string>): (d: Decoded)
    ensures d != NotRmc
  {
    if |f| <= 2 then Malformed(MissingField(2))
    else if f[2] != "A" then NotValid
    else if |f| <= 3 then Malformed(MissingField(3))
    else
      match Coordinate(f[3], Cut(f), 3)
      case Failed(e) => Malformed(e)
      case Read(latitude) =>
        if |f| <= 4 then Malformed(MissingField(4))
        else
          var lat := Hemisphere(latitude, f[4] == "S");
          if |f| <= 5 then Malformed(MissingField(5))
          else
            match Coordinate(f[5], Cut(f), 5)
            case Failed(e) => Malformed(e)
            case Read(longitude) =>
              if |f| <= 6 then Malformed(MissingField(6))
              else Fix(lat, Hemisphere(longitude, f[6] == "E"))
  }

  /** `setPoint`'s decoding of one message. */
  function Decode(message: string): Decoded {
    if !Contains(message, "RMC") then NotRmc else DecodeFields(Split(message))
  }

  /** A message without "RMC" is never decoded. */
  lemma NoMarkerIgnored(message: string)
    ensures Decode(message) == NotRmc <==> !Contains(message, "RMC")
  {
  }

  /** A sentence is rejected as not valid exactly when it has a status field other than "A". */
  lemma NotValidExactly(f: seq<string>)
    ensures DecodeFields(f) == NotValid <==> |f| > 2 && f[2] != "A"
  {
  }

  /**
   * A fix comes out exactly when there are at least seven fields, the
   * status is "A" and both coordinate fields read at the latitude's cut;
   * its latitude is field 3 signed by field 4 ("S" negates) and its
   * longitude field 5, cut at the same place, signed by field 6 ("E"
   * negates).
   */
  lemma FixExactly(f: seq<string>, lat: real, lon: real)
    ensures DecodeFields(f) == Fix(lat, lon) <==>
      && |f| >= 7
      && f[2] == "A"
      && Coordinate(f[3], Cut(f), 3).Read?
      && Coordinate(f[5], Cut(f), 5).Read?
      && lat == Hemisphere(Coordinate(f[3], Cut(f), 3).value, f[4] == "S")
      && lon == Hemisphere(Coordinate(f[5], Cut(f), 5).value, f[6] == "E")
  {
  }

  /**
   * Hemisphere letters decide the signs: for unsigned fields "S" gives a
   * latitude at or below zero and any other letter one at or above; "E"
   * gives a longitude at or below zero and any other letter (such as "W")
   * one at or above.
   */
  lemma HemisphereSigns(f: seq<string>, lat: real, lon: real)
    requires DecodeFields(f) == Fix(lat, lon)
    requires forall i :: 0 <= i < |f[3]| ==> f[3][i] != '-'
    requires forall i :: 0 <= i < |f[5]| ==> f[5][i] != '-'
    ensures f[4] == "S" ==> lat <= 0.0
    ensures f[4] != "S" ==> lat >= 0.0
    ensures f[6] == "E" ==> lon <= 0.0
    ensures f[6] != "E" ==> lon >= 0.0
  {
    FixExactly(f, lat, lon);
    var cut := Cut(f);
    UnsignedCoordinate(f[3], cut, 3);
    UnsignedCoordinate(f[5], cut, 5);
  }

  lemma UnsignedCoordinate(field: string, cut: int, index: nat)
    requires forall i :: 0 <= i < |field| ==> field[i] != '-'
    requires Coordinate(field, cut, index).Read?
    ensures Coordinate(field, cut, index).value >= 0.0
  {
    assert 0 <= cut <= |field|;
    if cut > 0 {
      assert field[..cut][0] == field[0];
    }
    if cut < |field| {
      assert field[cut..][0] == field[cut];
    }
    ParseDecimalNonNegative(field[..cut]);
    ParseDecimalNonNegative(field[cut..]);
  }

  /**
   * The textbook RMC sentence, fix 48 deg 07.038' N, 11 deg 31.000' E:
   * "$GPRMC,123519,A,4807.038,N,01131.000,E,022.4,084.4,230394,003.1,W*6A".
   */
  const ExampleFields: seq<string> := ["$GPRMC", "123519", "A", "4807.038", "N", "01131.000", "E",
                                       "022.4", "084.4", "230394", "003.1", "W*6A"]

  const Example: string := Join(ExampleFields)

  /** `split` gives the fields back. */
  lemma ExampleSplit()
    ensures Split(Example) == ExampleFields
  {
    forall i | 0 <= i < |ExampleFields| ensures ',' !in ExampleFields[i] {
      CommaFreeField(i);
    }
    SplitJoin(ExampleFields);
  }

  lemma CommaFreeField(i: int)
    requires 0 <= i < |ExampleFields|
    ensures ',' !in ExampleFields[i]
  {
  }

  /**
   * The decoded fix. The longitude field is cut at the latitude's split
   * point 2, so its degrees read as "01" and its minutes as "131.000".
   */
  lemma ExampleDecoded()
    ensures Decode(Example) == Fix(48.0 + 7.038 / 60.0, -(1.0 + 131.0 / 60.0))
  {
    ExampleHasMarker();
    ExampleSplit();
    ExampleFieldsDecoded();
  }

  lemma ExampleHasMarker()
    ensures Contains(Example, "RMC")
  {
    var rest := "," + Join(ExampleFields[1..]);
    assert ExampleFields[0] == "$GP" + "RMC";
    assert Example == "$GP" + "RMC" + rest;
    InfixOccurs("$GP", "RMC", rest);
  }

  lemma ExampleFieldsDecoded()
    ensures DecodeFields(ExampleFields) == Fix(48.0 + 7.038 / 60.0, -(1.0 + 131.0 / 60.0))
  {
    var f := ExampleFields;
    assert |f| == 12 && f[2] == "A" && f[3] == "4807.038" && f[4] == "N";
    assert f[5] == "01131.000" && f[6] == "E";
    ExampleCut();
    ExampleLatitude();
    ExampleLongitude();
  }

  /** The point of "4807.038" is at 4, so both fields are cut at 2. */
  lemma ExampleCut()
    ensures Cut(ExampleFields) == 2
  {
    assert "4807" + ['.'] + "038" == "4807.038";
    IndexOfAbsent("4807", "038", '.');
  }

  lemma ExampleLatitude()
    ensures Coordinate("4807.038", 2, 3) == Read(48.0 + 7.038 / 60.0)
  {
    ExampleLatitudeParts();
    assert "4807.038"[..2] == "48";
    assert "4807.038"[2..] == "07.038";
  }

  lemma ExampleLatitudeParts()
    ensures ParseDecimal("48") == Some(48.0)
    ensures ParseDecimal("07.038") == Some(7.038)
  {
    TwoDigits('4', '8');
    ParseWhole("48");
    ExampleLatitudeMinutes();
  }

  lemma ExampleLatitudeMinutes()
    ensures ParseDecimal("07.038") == Some(7.038)
  {
    TwoDigits('0', '7');
    ThreeDigits('0', '3', '8');
    ParsePointed("07", "038");
    assert "07" + "." + "038" == "07.038";
  }

  lemma ExampleLongitude()
    ensures Coordinate("01131.000", 2, 5) == Read(1.0 + 131.0 / 60.0)
  {
    ExampleLongitudeParts();
    assert "01131.000"[..2] == "01";
    assert "01131.000"[2..] == "131.000";
  }

  lemma ExampleLongitudeParts()
    ensures ParseDecimal("01") == Some(1.0)
    ensures ParseDecimal("131.000") == Some(131.0)
  {
    TwoDigits('0', '1');
    ParseWhole("01");
    ExampleLongitudeMinutes();
  }

  lemma ExampleLongitudeMinutes()
    ensures ParseDecimal("131.000") == Some(131.0)
  {
    ThreeDigits('1', '3', '1');
    ThreeDigits('0', '0', '0');
    assert Pow10(3) == 1000;
    ParsePointed("131", "000");
    assert "131" + "." + "000" == "131.000";
  }
}
