# PPPlot plot view: a Dafny model

PPPlot is an Android GNSS tracker. Its `PlotView` receives NMEA 0183
sentences, keeps a geodetic origin, projects each fix onto the screen as a
trail of planar points, and draws a scale bar with a caption. This project
models the logic of that view and proves properties about it:

- `Text` (`text.dfy`): the parts of `String.indexOf`, `String.contains` and
  `Double.parseDouble` that the view uses. Numbers are restricted to plain
  decimal notation.
- `Nmea` (`nmea.dfy`): `String.split(",")` with Java's removal of trailing
  empty strings, and the decoding of an RMC sentence as `setPoint` does it.
  Every exception the decoder can raise becomes a `Malformed(Fault)` outcome:
  a missing field, a substring cut out of range, or a number that does not
  parse.
- `UnitScale` (`unit_scale.dfy`): the ladder of sixteen unit lengths, the two
  loops of `unitString` as recursive functions, and the caption table.
- `Tracking` (`tracking.dfy`): the session state as a datatype, and one pure
  transition function per operation (`setPoint`, `setZoom`, `moveAll`,
  `clear`, `setFixTrackCenter`, `unitString`).
  - The class `PlotView` holds the same state in fields. Each of its methods
    is proved to perform exactly the matching transition.
  - `UnitString` keeps the source's two `while` loops on
    `currentUnitLengthIndex`.
  - The projection arithmetic is a `Projection` value of four functions.
    `Equirectangular(cos, pi)` is the instance the source computes, with
    `Math.cos` and `Math.PI` passed in as parameters.

The model follows the code where the code and the documented behaviour
differ. The longitude field is cut into degrees and minutes at the position
taken from the latitude field. For the textbook sentence
`$GPRMC,123519,A,4807.038,N,01131.000,E,...` the code therefore yields
longitude −(1 + 131/60) degrees, not −(11 + 31/60). `Nmea.ExampleDecoded`
proves that value.

"E" negates the longitude and "W" does not, as in the source.

## Model

| member | source | states |
|---|---|---|
| Text.IndexOf | src/org/braincopy/gnss/plot/PlotView.java:373 | the result is the first position of the character, or -1 exactly when it does not occur |
| Text.Contains | src/org/braincopy/gnss/plot/PlotView.java:370 | definition: the text occurs as a contiguous piece at some position |
| Text.ParseDecimal | src/org/braincopy/gnss/plot/PlotView.java:374-385 | definition: an optional sign, then digits with at most one point and at least one digit; `None` stands for the NumberFormatException |
| Text.ParseDecimalNonNegative | src/org/braincopy/gnss/plot/PlotView.java:374-377 | a number written without a minus sign never parses to a negative value |
| Text.ParseDecimalMinus | src/org/braincopy/gnss/plot/PlotView.java:374-377 | a leading minus parses exactly when the rest does, and negates its value |
| Text.ParseWhole | src/org/braincopy/gnss/plot/PlotView.java:374-375 | a non-empty run of digits parses to the natural number it denotes |
| Text.ParsePointed | src/org/braincopy/gnss/plot/PlotView.java:376-377 | `digits.digits` parses to the whole part plus the fraction divided by ten to the number of its digits |
| UnitScale.LadderSteps | src/org/braincopy/gnss/plot/PlotView.java:112-113 | neighbouring unit lengths strictly grow, by a factor of at most 2.5 |
| UnitScale.LadderIncreasing | src/org/braincopy/gnss/plot/PlotView.java:112-113 | the ladder is strictly increasing |
| UnitScale.ZoomUp | src/org/braincopy/gnss/plot/PlotView.java:285-288 | the first loop stops at index 0 or at the first bar of at most 200 dp, and every index it passed had a bar over 200 dp |
| UnitScale.ZoomDown | src/org/braincopy/gnss/plot/PlotView.java:289-292 | the second loop stops at the top or at the first bar of at least 50 dp, and every index it passed had a bar under 50 dp |
| UnitScale.Settle | src/org/braincopy/gnss/plot/PlotView.java:284-292 | the two loops together leave a valid ladder index |
| UnitScale.SettleInRange | src/org/braincopy/gnss/plot/PlotView.java:282-292 | for a positive density the settled bar is between 50 and 200 dp, except at the two ends of the ladder |
| UnitScale.SettleNonPositive | src/org/braincopy/gnss/plot/PlotView.java:285-292 | for a zero or negative density the index ends at the top |
| UnitScale.SettleIdempotent | src/org/braincopy/gnss/plot/PlotView.java:285-292 | a second pass of both loops at the same density moves nothing |
| UnitScale.LabelNamesLength | src/org/braincopy/gnss/plot/PlotView.java:293-345 | the caption of every ladder index, read as millimetres, centimetres or metres, names exactly that ladder entry |
| UnitScale.LabelsDistinct | src/org/braincopy/gnss/plot/PlotView.java:293-345 | no two ladder indices share a caption |
| UnitScale.Label | src/org/braincopy/gnss/plot/PlotView.java:293-345 | definition: the caption of each of the sixteen indices, "1m" for any other index |
| UnitScale.InitialScale | src/org/braincopy/gnss/plot/PlotView.java:97-118 | at the initial 100 dp per metre the initial index 9 stays put and reads "1m" |
| UnitScale.ZoomedInScale | src/org/braincopy/gnss/plot/PlotView.java:285-317 | at 1000 dp per metre the walk goes from index 9 to index 7, a 200 dp bar captioned "20cm" |
| Nmea.Pieces | src/org/braincopy/gnss/plot/PlotView.java:371 | the pieces between commas are at least one and contain no comma |
| Nmea.JoinPieces | src/org/braincopy/gnss/plot/PlotView.java:371 | joining the pieces with commas gives back the text |
| Nmea.PiecesJoin | src/org/braincopy/gnss/plot/PlotView.java:371 | comma-free fields come back unchanged from their joined text |
| Nmea.DropTrailingEmpty | src/org/braincopy/gnss/plot/PlotView.java:371 | the result is a prefix whose last entry is not empty, and everything dropped was empty |
| Nmea.SplitKeepsPrefix | src/org/braincopy/gnss/plot/PlotView.java:371 | `split` keeps a prefix of the pieces, drops only empty ones, and after a comma its last field is not empty |
| Nmea.SplitJoin | src/org/braincopy/gnss/plot/PlotView.java:371 | splitting two or more joined comma-free fields, the last not empty, gives exactly those fields |
| Nmea.Split | src/org/braincopy/gnss/plot/PlotView.java:371 | definition: a text without a comma is its own single field; otherwise the pieces between commas without the trailing empty ones |
| Nmea.Cut | src/org/braincopy/gnss/plot/PlotView.java:373 | definition: the position of the first point of field 3, minus 2 |
| Nmea.Coordinate | src/org/braincopy/gnss/plot/PlotView.java:373-386 | definition: the text before the cut as degrees plus the text from the cut on as minutes over 60, or the fault Java raises |
| Nmea.Hemisphere | src/org/braincopy/gnss/plot/PlotView.java:379-389 | definition: the value multiplied by -1 when the hemisphere letter asks for it |
| Nmea.CoordinateRead | src/org/braincopy/gnss/plot/PlotView.java:373-386 | a coordinate reads exactly when the cut is within the field and both halves parse, and its value is degrees plus minutes over 60 |
| Nmea.DecodeFields | src/org/braincopy/gnss/plot/PlotView.java:370-389 | a split sentence never decodes as "no RMC" |
| Nmea.NoMarkerIgnored | src/org/braincopy/gnss/plot/PlotView.java:370 | a message is ignored as "no RMC" exactly when it does not contain "RMC" |
| Nmea.Decode | src/org/braincopy/gnss/plot/PlotView.java:369-389 | definition: no "RMC" is ignored, otherwise the split fields are decoded |
| Nmea.NotValidExactly | src/org/braincopy/gnss/plot/PlotView.java:372 | a sentence is rejected as not valid exactly when it has a status field other than "A" |
| Nmea.FixExactly | src/org/braincopy/gnss/plot/PlotView.java:371-389 | a fix comes out exactly when there are seven fields, status "A" and both coordinates read at the latitude's cut, with the hemisphere signs applied |
| Nmea.HemisphereSigns | src/org/braincopy/gnss/plot/PlotView.java:379-389 | for unsigned fields "S" makes the latitude non-positive and any other letter non-negative; "E" does the same to the longitude |
| Nmea.UnsignedCoordinate | src/org/braincopy/gnss/plot/PlotView.java:374-386 | a coordinate field without a minus sign reads as a non-negative value |
| Nmea.ExampleSplit | src/org/braincopy/gnss/plot/PlotView.java:371 | the textbook RMC sentence splits into its twelve fields |
| Nmea.ExampleHasMarker | src/org/braincopy/gnss/plot/PlotView.java:370 | the textbook sentence contains "RMC" |
| Nmea.ExampleLatitudeParts | src/org/braincopy/gnss/plot/PlotView.java:374-377 | "48" parses to 48 and "07.038" to 7.038 |
| Nmea.ExampleLongitudeParts | src/org/braincopy/gnss/plot/PlotView.java:382-385 | "01" parses to 1 and "131.000" to 131 |
| Nmea.ExampleCut | src/org/braincopy/gnss/plot/PlotView.java:373 | the cut of the textbook sentence falls after two digits |
| Nmea.ExampleLatitude | src/org/braincopy/gnss/plot/PlotView.java:373-381 | "4807.038" cut there reads 48 + 7.038/60 |
| Nmea.ExampleLongitude | src/org/braincopy/gnss/plot/PlotView.java:382-386 | "01131.000" cut at the latitude's position reads 1 + 131/60 |
| Nmea.ExampleFieldsDecoded | src/org/braincopy/gnss/plot/PlotView.java:372-389 | the twelve fields decode to latitude 48 + 7.038/60 and longitude −(1 + 131/60) |
| Nmea.ExampleDecoded | src/org/braincopy/gnss/plot/PlotView.java:369-389 | the textbook sentence decodes to that fix |
| Tracking.EquirectangularZeroAtOrigin | src/org/braincopy/gnss/plot/PlotView.java:396-399 | the projection gives a zero offset for a fix at the origin, whatever the cosine |
| Tracking.EquirectangularX | src/org/braincopy/gnss/plot/PlotView.java:396-397 | definition: the x offset of a fix from the origin, scaled by the cosine of its latitude and by unitDP |
| Tracking.EquirectangularY | src/org/braincopy/gnss/plot/PlotView.java:398-399 | definition: the y offset of a fix from the origin, scaled by unitDP |
| Tracking.EquirectangularLon | src/org/braincopy/gnss/plot/PlotView.java:462-465 | definition: the longitude change for a pan in x, 0 where the divisor is 0 |
| Tracking.EquirectangularLat | src/org/braincopy/gnss/plot/PlotView.java:466-467 | definition: the latitude change for a pan in y, 0 where the divisor is 0 |
| Tracking.PanShiftsLaterFixes | src/org/braincopy/gnss/plot/PlotView.java:466-469 | after a pan by dy, a fix's y offset from the moved origin is its old offset plus dy |
| Tracking.PanShiftsLaterFixesOnParallel | src/org/braincopy/gnss/plot/PlotView.java:462-468 | after a pan by dx, a fix on the origin's parallel has its old x offset plus dx |
| Tracking.Initial | src/org/braincopy/gnss/plot/PlotView.java:67-118 | a new view has no origin and a valid scale index |
| Tracking.Translate | src/org/braincopy/gnss/plot/PlotView.java:402 | moving the trail keeps its length |
| Tracking.ScaleAbout | src/org/braincopy/gnss/plot/PlotView.java:449 | zooming the trail keeps its length |
| Tracking.TranslateAt | src/org/braincopy/gnss/plot/PlotView.java:402 | every point of the trail moves by the same vector, and order is kept |
| Tracking.TranslateBack | src/org/braincopy/gnss/plot/PlotView.java:461 | a move followed by the opposite move restores the trail |
| Tracking.ScaleByOne | src/org/braincopy/gnss/plot/PlotView.java:449 | zooming the trail by 1 changes no point |
| Tracking.ScaleAboutAt | src/org/braincopy/gnss/plot/PlotView.java:449 | every point moves to the pivot plus its distance from the pivot times d, and order is kept |
| Tracking.ScaleBack | src/org/braincopy/gnss/plot/PlotView.java:447-450 | zooming by d and then by 1/d about the same pivot restores the trail |
| Tracking.OperationsKeepValid | src/org/braincopy/gnss/plot/PlotView.java:285-292 | every operation keeps the scale index on the ladder |
| Tracking.AfterFix | src/org/braincopy/gnss/plot/PlotView.java:390-408 | definition: set an unset origin, then recentre (shift the trail by minus the offset, append the centre, make the fix the origin) or append the centre plus the offset |
| Tracking.AfterOutcome | src/org/braincopy/gnss/plot/PlotView.java:390-412 | definition: a fix is accepted, every other outcome leaves the session as it is |
| Tracking.AfterMessage | src/org/braincopy/gnss/plot/PlotView.java:369-414 | definition: the session after the decoded message is acted on |
| Tracking.Zoomed | src/org/braincopy/gnss/plot/PlotView.java:447-449 | definition: unitDP multiplied by d and the trail scaled about the view centre |
| Tracking.Moved | src/org/braincopy/gnss/plot/PlotView.java:460-469 | definition: the trail translated and the origin moved by the projection's longitude and latitude changes |
| Tracking.Cleared | src/org/braincopy/gnss/plot/PlotView.java:476 | definition: the trail emptied |
| Tracking.WithTrackCenter | src/org/braincopy/gnss/plot/PlotView.java:485-494 | definition: the flag set, then with the flag on and a non-empty trail a pan that takes the latest point to the centre |
| Tracking.Rescaled | src/org/braincopy/gnss/plot/PlotView.java:285-292 | definition: the scale index replaced by the settled one |
| Tracking.IgnoredMessage | src/org/braincopy/gnss/plot/PlotView.java:370-412 | a message that does not decode to a fix leaves the whole session unchanged |
| Tracking.UnusableMessage | src/org/braincopy/gnss/plot/PlotView.java:370-412 | a message without "RMC", or with a status other than "A", leaves the session unchanged |
| Tracking.FirstFixAtCentre | src/org/braincopy/gnss/plot/PlotView.java:390-405 | the first fix becomes the origin and lands on the view centre, one point more on the trail |
| Tracking.FreeModeFix | src/org/braincopy/gnss/plot/PlotView.java:406-408 | in free mode the origin stays, old points stay, and the centre plus the fix's offset is appended |
| Tracking.CentredModeFix | src/org/braincopy/gnss/plot/PlotView.java:401-405 | in centred mode, for every trail, the fix becomes the origin and lands on the centre as one point more, and every old point moves by minus the fix's offset |
| Tracking.ClearedCentredFix | src/org/braincopy/gnss/plot/PlotView.java:401-403 | after `clear`, a centred fix leaves exactly the centre on the trail |
| Tracking.CentringBringsLatestToCentre | src/org/braincopy/gnss/plot/PlotView.java:485-494 | turning centring on with a non-empty trail brings the latest point to the centre and keeps the trail's length |
| Tracking.CentringOff | src/org/braincopy/gnss/plot/PlotView.java:485-494 | turning centring off changes only the flag |
| Tracking.PanBack | src/org/braincopy/gnss/plot/PlotView.java:460-461 | a pan followed by the opposite pan restores the trail |
| Tracking.ZoomBack | src/org/braincopy/gnss/plot/PlotView.java:447-449 | zooming by d and then by 1/d restores the density and the trail |
| Tracking.ZoomByOne | src/org/braincopy/gnss/plot/PlotView.java:447-449 | zooming by 1 changes nothing |
| Tracking.RescaleIdempotent | src/org/braincopy/gnss/plot/PlotView.java:282-292 | a second redraw without a zoom in between keeps the scale index |
| Tracking.ZoomThenRescale | src/org/braincopy/gnss/plot/PlotView.java:285-292 | after a positive zoom of a positive density the next redraw picks a bar between 50 and 200 dp, except at the ends of the ladder |
| Tracking.FreshViewTakesExample | src/org/braincopy/gnss/plot/PlotView.java:369-408 | a new view receiving the textbook sentence takes its fix as origin and holds one point, at the centre |
| Tracking.PlotView.constructor | src/org/braincopy/gnss/plot/PlotView.java:67-118 | the fields start at the sentinel origin, 100 dp per metre, index 9, free mode and an empty trail |
| Tracking.PlotView.UnitString | src/org/braincopy/gnss/plot/PlotView.java:282-346 | the loops leave the settled index in the field and return its caption; nothing else changes |
| Tracking.PlotView.SetPoint | src/org/braincopy/gnss/plot/PlotView.java:369-414 | returns the decoding of the message and performs the matching transition |
| Tracking.PlotView.AcceptFix | src/org/braincopy/gnss/plot/PlotView.java:390-408 | the fields change exactly as the fix transition says |
| Tracking.PlotView.SetZoom | src/org/braincopy/gnss/plot/PlotView.java:447-451 | the fields change exactly as the zoom transition says |
| Tracking.PlotView.MoveAll | src/org/braincopy/gnss/plot/PlotView.java:460-470 | the fields change exactly as the pan transition says |
| Tracking.PlotView.Clear | src/org/braincopy/gnss/plot/PlotView.java:475-478 | only the trail changes, to empty |
| Tracking.PlotView.SetFixTrackCenter | src/org/braincopy/gnss/plot/PlotView.java:485-494 | the fields change exactly as the centring transition says |
| Tracking.PlotView.IsFixTrackCenter | src/org/braincopy/gnss/plot/PlotView.java:500-502 | returns the centring flag |

## Left out

- Rendering, the surface lifecycle, bitmaps, the matrix and `drawPlotArea`: these are drawing. The view centre is a constructor parameter.
- `synchronized` blocks and the drawing thread: concurrency is not modelled.
- `Log.e` on a sentence that is not valid: the outcome `NotValid` stands for it, and no log is kept.
- The `NullPointerException` raised before `surfaceCreated` has made the trail: by `setPoint` on a valid fix (lines 402 and 407), by `setZoom`, `moveAll` and `clear`, and by `setFixTrackCenter(true)` (line 489; `setFixTrackCenter(false)` never touches the trail). The model always has a trail.
- PointArray.java is not part of this model. `moveAll` is modelled as a shift of every point, `zoomAll` as scaling about the pivot, `setSize(0)` as emptying, and `addPoint` as appending. Its capacity of 1000 points and what it does when full are not modelled.
- Floating point: reals are exact, so double rounding and float-to-double widening of the centre are not modelled.
- `Math.cos` and `Math.PI` are parameters of `Equirectangular`, not computed.
- Tracking.Moved: a pan while the origin is still unset is not modelled as Java computes it. Java takes the cosine of `Double.MAX_VALUE * Math.PI / 180`, which overflows to infinity, so the cosine is NaN and `lonCenter` becomes NaN for every pan, `moveAll(0, 0)` included (lines 462-468). The unset test of lines 390-391 then never holds again. In free mode every later fix is appended at a NaN or infinite position (line 407), until centred mode overwrites the origin (lines 404-405). The model has no NaN: after a zero pan its origin is still unset, so the next fix becomes the origin and lands on the centre; after any other pan the origin no longer holds the sentinel but a finite value near `Double.MAX_VALUE`, so later fixes are plotted from that origin.
- Tracking.PlotView.MoveAll: performs `Tracking.Moved`, so the same pan before the first fix differs from Java in the same way.
- Tracking.EquirectangularLon: yields 0 where Java divides by zero and gets an infinity or NaN.
- Tracking.EquirectangularLat: yields 0 where Java divides by zero and gets an infinity or NaN.
- Text.ParseDecimal: accepts only an optional sign, digits and one optional point. Java also accepts exponents, surrounding whitespace, `d`/`f` suffixes, `NaN`, `Infinity` and hexadecimal forms, which the model reports as not a number.
- Tracking.PanShiftsLaterFixesOnParallel: the x part is stated only for a fix on the origin's latitude, because off that parallel the cosines differ and the shift is not exactly dx.
- The checksum after `*` and the other RMC fields (time, speed, course, date, variation) are not read by the source and are not modelled.
