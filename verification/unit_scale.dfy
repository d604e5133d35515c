/**
 * The scale bar of the plot view: a fixed ladder of sixteen unit lengths in
 * metres (a 1-2-5 progression from 1 mm to 100 m), the walk of the current
 * ladder index that keeps the bar between 50 and 200 dp long, and the caption
 * drawn under the bar.
 */
module UnitScale {
  import opened Wrappers
  import opened Text

  /** `unitLength`: the ladder of unit lengths, in metres. */
  const Ladder: seq<real> := [0.001, 0.002, 0.005, 0.01, 0.02, 0.05, 0.1, 0.2, 0.5,
                               1.0, 2.0, 5.0, 10.0, 20.0, 50.0, 100.0]

  /** The last ladder index, `unitLength.length - 1`. */
  const Top: int := 15

  /** Bar lengths in dp that the walk aims between. */
  const MinBar: real := 50.0
  const MaxBar: real := 200.0

  /** Initial density (100 dp is one metre) and initial index (1 m). */
  const InitialUnitDP: real := 100.0
  const InitialIndex: int := 9

  predicate ValidIndex(i: int) {
    0 <= i <= Top
  }

  /** On-screen length in dp of ladder entry `i` at `unitDP` dp per metre. */
  function Bar(unitDP: real, i: int): real
    requires ValidIndex(i)
  {
    unitDP * Ladder[i]
  }

  /**
   * The first loop of `unitString` ("zoom up"): step the index down while the
   * bar is longer than 200 dp and the index is above 0.
   */
  function ZoomUp(unitDP: real, i: int): (r: int)
    requires ValidIndex(i)
    ensures 0 <= r <= i
    ensures r == 0 || Bar(unitDP, r) <= MaxBar
    ensures forall j :: r < j <= i ==> Bar(unitDP, j) > MaxBar
    decreases i
  {
    if Bar(unitDP, i) > MaxBar && i > 0 then ZoomUp(unitDP, i - 1) else i
  }

  /**
   * The second loop of `unitString`: step the index up while the bar is
   * shorter than 50 dp and the index is below the top.
   */
  function ZoomDown(unitDP: real, i: int): (r: int)
    requires ValidIndex(i)
    ensures i <= r <= Top
    ensures r == Top || Bar(unitDP, r) >= MinBar
    ensures forall j :: i <= j < r ==> Bar(unitDP, j) < MinBar
    decreases Top - i
  {
    if Bar(unitDP, i) < MinBar && i < Top then ZoomDown(unitDP, i + 1) else i
  }

  /** The index `unitString` leaves behind: both loops, one after the other. */
  function Settle(unitDP: real, i: int): (r: int)
    requires ValidIndex(i)
    ensures ValidIndex(r)
  {
    ZoomDown(unitDP, ZoomUp(unitDP, i))
  }

  /** Neighbouring ladder entries grow, and by a factor of at most 2.5. */
  lemma LadderSteps(j: int)
    requires 0 <= j < Top
    ensures Ladder[j] < Ladder[j + 1] <= 2.5 * Ladder[j]
  {
  }

  /**
   * With a positive density the settled bar lies in [50, 200] dp, except
   * where the ladder runs out: at index 0 it may be longer, at the top
   * shorter. The upper bound survives the second loop because a climb
   * from below 50 dp multiplies the bar by at most 2.5 per step.
   */
  lemma {:induction false} SettleInRange(unitDP: real, i: int)
    requires unitDP > 0.0
    requires ValidIndex(i)
    ensures var r := Settle(unitDP, i);
      (r == 0 || Bar(unitDP, r) <= MaxBar) && (r == Top || Bar(unitDP, r) >= MinBar)
  {
    var k := ZoomUp(unitDP, i);
    var r := ZoomDown(unitDP, k);
    if r > k {
      assert Bar(unitDP, r - 1) < MinBar;
      LadderSteps(r - 1);
      assert Bar(unitDP, r) <= 2.5 * Bar(unitDP, r - 1);
    }
  }

  /** With zero or negative density every bar is too short: the walk ends at the top. */
  lemma {:induction false} SettleNonPositive(unitDP: real, i: int)
    requires unitDP <= 0.0
    requires ValidIndex(i)
    ensures Settle(unitDP, i) == Top
  {
    var r := ZoomDown(unitDP, ZoomUp(unitDP, i));
    ShortBar(unitDP, r);
  }

  /** With zero or negative density a bar is never 50 dp long. */
  lemma ShortBar(unitDP: real, i: int)
    requires unitDP <= 0.0
    requires ValidIndex(i)
    ensures Bar(unitDP, i) < MinBar
  {
    LadderPositive(i);
    NonPositiveProduct(unitDP, Ladder[i]);
  }

  lemma LadderPositive(i: int)
    requires ValidIndex(i)
    ensures Ladder[i] > 0.0
  {
  }

  lemma NonPositiveProduct(a: real, b: real)
    requires a <= 0.0 && b > 0.0
    ensures a * b <= 0.0
  {
  }

  /** Running `unitString` a second time with the same density moves nothing. */
  lemma {:induction false} SettleIdempotent(unitDP: real, i: int)
    requires ValidIndex(i)
    ensures Settle(unitDP, Settle(unitDP, i)) == Settle(unitDP, i)
  {
    var r := Settle(unitDP, i);
    if unitDP > 0.0 {
      SettleInRange(unitDP, i);
    } else {
      SettleNonPositive(unitDP, i);
    }
    assert ZoomUp(unitDP, r) == r;
  }

  /** The `switch` of `unitString`; indices outside the table keep the initial "1m". */
  function Label(i: int): string {
    match i
    case 0 => "1mm"
    case 1 => "2mm"
    case 2 => "5mm"
    case 3 => "1cm"
    case 4 => "2cm"
    case 5 => "5cm"
    case 6 => "10cm"
    case 7 => "20cm"
    case 8 => "50cm"
    case 9 => "1m"
    case 10 => "2m"
    case 11 => "5m"
    case 12 => "10m"
    case 13 => "20m"
    case 14 => "50m"
    case 15 => "100m"
    case _ => "1m"
  }

  /**
   * The length in metres a label names: a number of millimetres,
   * centimetres or metres. This is an independent reading of the caption
   * table, used to check the table against the ladder.
   */
  function LabelLength(caption: string): (r: Option<real>)
  {
    var n := |caption|;
    if n < 1 || caption[n - 1] != 'm' then None
    else if n >= 2 && caption[n - 2] == 'm' then Measure(caption[..n - 2], 0.001)
    else if n >= 2 && caption[n - 2] == 'c' then Measure(caption[..n - 2], 0.01)
    else Measure(caption[..n - 1], 1.0)
  }

  function Measure(count: string, unit: real): Option<real> {
    if |count| > 0 && AllDigits(count) then Some(DigitsValue(count) as real * unit) else None
  }

  /** Every index of the ladder has its own caption, and the caption names that entry's length. */
  lemma LabelNamesLength(i: int)
    requires ValidIndex(i)
    ensures LabelLength(Label(i)) == Some(Ladder[i])
  {
    NumeralValues();
    var caption := Label(i);
    var n := |caption|;
    if i <= 2 {
      assert caption[..n - 2] == ["1", "2", "5"][i];
    } else if i <= 8 {
      assert caption[..n - 2] == ["1", "2", "5", "10", "20", "50"][i - 3];
    } else {
      assert caption[..n - 1] == ["1", "2", "5", "10", "20", "50", "100"][i - 9];
    }
  }

  /** The numerals that occur in the captions. */
  lemma NumeralValues()
    ensures AllDigits("1") && DigitsValue("1") == 1
    ensures AllDigits("2") && DigitsValue("2") == 2
    ensures AllDigits("5") && DigitsValue("5") == 5
    ensures AllDigits("10") && DigitsValue("10") == 10
    ensures AllDigits("20") && DigitsValue("20") == 20
    ensures AllDigits("50") && DigitsValue("50") == 50
    ensures AllDigits("100") && DigitsValue("100") == 100
  {
    OneDigit('1');
    OneDigit('2');
    OneDigit('5');
    TwoDigits('1', '0');
    TwoDigits('2', '0');
    TwoDigits('5', '0');
    ThreeDigits('1', '0', '0');
  }

  lemma {:induction false} LadderIncreasing(i: int, j: int)
    requires 0 <= i < j <= Top
    ensures Ladder[i] < Ladder[j]
  {
    LadderSteps(j - 1);
    if i < j - 1 {
      LadderIncreasing(i, j - 1);
    }
  }

  /** No two ladder entries share a caption, so the default of the switch is never the answer. */
  lemma LabelsDistinct(i: int, j: int)
    requires ValidIndex(i) && ValidIndex(j) && i != j
    ensures Label(i) != Label(j)
  {
    LabelNamesLength(i);
    LabelNamesLength(j);
    if i < j { LadderIncreasing(i, j); } else { LadderIncreasing(j, i); }
  }

  /** The first frame: 100 dp per metre at index 9 keeps index 9 and reads "1m". */
  lemma InitialScale()
    ensures Settle(InitialUnitDP, InitialIndex) == InitialIndex
    ensures Label(InitialIndex) == "1m"
  {
  }

  /** At 1000 dp per metre the walk steps down from 1 m to 20 cm, a 200 dp bar. */
  lemma ZoomedInScale()
    ensures Settle(1000.0, InitialIndex) == 7
    ensures Bar(1000.0, 7) == MaxBar
    ensures Label(7) == "20cm"
  {
    assert ZoomUp(1000.0, 7) == 7;
    assert ZoomUp(1000.0, 9) == 7;
  }
}
