/**
 * The custom-coverage validator: given the date-range rows of a custom coverage form
 * and the parent package's own custom coverage, it produces one error entry per row.
 * Each row runs four validators in the order format, order, overlap, package bound,
 * and keeps the first one that reports something.
 */
module CoverageValidation {
  import opened Common
  import opened Moment

  /** One row of the form: `{ beginCoverage, endCoverage }`. */
  datatype CoverageRow = CoverageRow(beginCoverage: DateField, endCoverage: DateField)

  /** How an end date is rendered in a message: a formatted date, or "Present" when open. */
  datatype Label = Present | Shown(at: Instant)

  /** The messages, as structured payloads rather than rendered text. */
  datatype Message =
    | EnterDateIn(pattern: string)               // "Enter date in {pattern} format."
    | StartAfterEnd                              // "Start date must be before end date"
    | OverlapsWith(begin: Instant, end: Label)   // "Date range overlaps with {begin} - {end}."
    | OutsidePackage(begin: Instant, end: Label) // "Dates must be within package's date range ({begin} - {end})."

  /** The entry for one field: absent (or `false`), `true` (outlined, no message), or a message. */
  datatype FieldMark = Unmarked | Outlined | Marked(message: Message)

  /** A validator's result: `false`, or an error object keyed by field. */
  datatype RowErrors = NoErrors | Errors(beginCoverage: FieldMark, endCoverage: FieldMark)

  /** `{ customCoverages: errors }`. */
  datatype FormErrors = FormErrors(customCoverages: seq<RowErrors>)

  /** The effective end of a row: its end date, or the present sentinel when it has none. */
  function EffectiveEnd(f: DateField): Instant {
    if f.Missing? then At(PresentMs) else MomentOf(f)
  }

  /** `moment.range(begin, end-or-present)` for a row whose begin is present. */
  function RangeOf(row: CoverageRow): Range
    requires !row.beginCoverage.Missing?
  {
    Range(MomentOf(row.beginCoverage), EffectiveEnd(row.endCoverage))
  }

  /**
   * The effective end of a row in milliseconds, `None` when its end does not parse: the
   * plain-number form of `EffectiveEnd`, used by the contracts (see `EndMsAgrees`).
   */
  function EndMs(f: DateField): (r: Option<int>) {
    match f
    case Missing => Some(PresentMs)
    case Invalid => None
    case Date(ms) => Some(ms)
  }

  /** `EndMs` and `EffectiveEnd` name the same instant. */
  lemma EndMsAgrees(f: DateField)
    ensures EffectiveEnd(f) == if EndMs(f).Some? then At(EndMs(f).value) else NaN
  {
  }

  // ---------------------------------------------------------------- format

  /** validateDateFormat: the begin date must be present and parse. */
  function ValidateDateFormat(row: CoverageRow, pattern: string): (r: RowErrors)
    ensures r.Errors? <==> !row.beginCoverage.Date?
    ensures r.Errors? ==> r.beginCoverage == Marked(EnterDateIn(pattern)) && r.endCoverage == Unmarked
  {
    if row.beginCoverage.Missing? || MomentOf(row.beginCoverage).NaN? then
      Errors(Marked(EnterDateIn(pattern)), Unmarked)
    else
      NoErrors
  }

  // ---------------------------------------------------------------- order

  /** validateStartDateBeforeEndDate: an end date, when given, must not precede the begin date. */
  function ValidateStartDateBeforeEndDate(row: CoverageRow): (r: RowErrors)
    requires row.beginCoverage.Date?
    ensures r.Errors? <==> row.endCoverage.Date? && row.endCoverage.ms < row.beginCoverage.ms
    ensures r.Errors? ==> r.beginCoverage == Marked(StartAfterEnd) && r.endCoverage == Unmarked
  {
    if !row.endCoverage.Missing? && Before(MomentOf(row.endCoverage), MomentOf(row.beginCoverage)) then
      Errors(Marked(StartAfterEnd), Unmarked)
    else
      NoErrors
  }

  // ---------------------------------------------------------------- overlap

  /** The three tests of the overlap scan: overlaps, equal, or the sibling contains the candidate. */
  predicate Conflicts(sibling: Range, candidate: Range) {
    Overlaps(sibling, candidate) || IsEqual(sibling, candidate) || ContainsRange(sibling, candidate)
  }

  /** Sibling `k` is compared with row `index` (it is another row and has a begin date) and conflicts with it. */
  predicate ConflictsAt(row: CoverageRow, rows: seq<CoverageRow>, index: nat, k: nat)
    requires row.beginCoverage.Date? && k < |rows|
  {
    k != index && !rows[k].beginCoverage.Missing? && Conflicts(RangeOf(rows[k]), RangeOf(row))
  }

  /** The error object naming a conflicting sibling; the end field is outlined without a message. */
  function OverlapError(sibling: CoverageRow): RowErrors
    requires !sibling.beginCoverage.Missing?
  {
    var end := if sibling.endCoverage.Missing? then Present else Shown(MomentOf(sibling.endCoverage));
    Errors(Marked(OverlapsWith(MomentOf(sibling.beginCoverage), end)), Outlined)
  }

  /** The lowest index at or after `from` whose sibling conflicts with `row`, if any. */
  function FirstConflict(row: CoverageRow, rows: seq<CoverageRow>, index: nat, from: nat): (r: Option<nat>)
    requires row.beginCoverage.Date?
    ensures r.Some? ==> from <= r.value < |rows| && ConflictsAt(row, rows, index, r.value)
    ensures r.Some? ==> forall k :: from <= k < r.value ==> !ConflictsAt(row, rows, index, k)
    ensures r.None? ==> forall k :: from <= k < |rows| ==> !ConflictsAt(row, rows, index, k)
    decreases |rows| - from
  {
    if from >= |rows| then None
    else if from == index || rows[from].beginCoverage.Missing? then FirstConflict(row, rows, index, from + 1)
    else if Conflicts(RangeOf(rows[from]), RangeOf(row)) then Some(from)
    else FirstConflict(row, rows, index, from + 1)
  }

  /** What validateNoRangeOverlaps returns for row `index`. */
  function NoRangeOverlaps(row: CoverageRow, rows: seq<CoverageRow>, index: nat): (r: RowErrors)
    requires row.beginCoverage.Date?
    ensures r.NoErrors? <==> forall k :: 0 <= k < |rows| ==> !ConflictsAt(row, rows, index, k)
    ensures r.Errors? ==> exists j :: 0 <= j < |rows| && ConflictsAt(row, rows, index, j)
                                      && (forall k :: 0 <= k < j ==> !ConflictsAt(row, rows, index, k))
                                      && r == OverlapError(rows[j])
  {
    match FirstConflict(row, rows, index, 0)
    case None => NoErrors
    case Some(j) => OverlapError(rows[j])
  }

  /** validateNoRangeOverlaps: scans the siblings in index order and stops at the first conflict. */
  method ValidateNoRangeOverlaps(row: CoverageRow, rows: seq<CoverageRow>, index: nat) returns (r: RowErrors)
    requires row.beginCoverage.Date?
    ensures r == NoRangeOverlaps(row, rows, index)
  {
    var coverageRange := RangeOf(row);
    var overlapIndex := 0;
    while overlapIndex < |rows|
      invariant 0 <= overlapIndex <= |rows|
      invariant FirstConflict(row, rows, index, 0) == FirstConflict(row, rows, index, overlapIndex)
    {
      var overlapRange := rows[overlapIndex];
      if index == overlapIndex || overlapRange.beginCoverage.Missing? {
        overlapIndex := overlapIndex + 1;
        continue;
      }
      if Conflicts(RangeOf(overlapRange), coverageRange) {
        return OverlapError(overlapRange);
      }
      overlapIndex := overlapIndex + 1;
    }
    return NoErrors;
  }

  // ---------------------------------------------------------------- package bound

  /** The package window in milliseconds holds `t`; an unparseable date lies in no window. */
  predicate InWindow(packageCoverage: CoverageRow, now: int, t: Option<int>) {
    && packageCoverage.beginCoverage.Date?
    && !packageCoverage.endCoverage.Invalid?
    && t.Some?
    && packageCoverage.beginCoverage.ms <= t.value
    && t.value <= (if packageCoverage.endCoverage.Date? then packageCoverage.endCoverage.ms else now)
  }

  /** validateWithinPackageRange: both ends of the row must lie in the package's range, the open package end being `now`. */
  function ValidateWithinPackageRange(row: CoverageRow, packageCoverage: Option<CoverageRow>, now: int): (r: RowErrors)
    requires row.beginCoverage.Date?
    ensures packageCoverage.None? || packageCoverage.value.beginCoverage.Missing? ==> r.NoErrors?
    ensures packageCoverage.Some? && !packageCoverage.value.beginCoverage.Missing? ==>
      var pkg := packageCoverage.value;
      var beginOut := !InWindow(pkg, now, Some(row.beginCoverage.ms));
      var endOut := !InWindow(pkg, now, EndMs(row.endCoverage));
      var end := if pkg.endCoverage.Missing? then Present else Shown(MomentOf(pkg.endCoverage));
      var message := Marked(OutsidePackage(MomentOf(pkg.beginCoverage), end));
      && (r.Errors? <==> beginOut || endOut)
      && (r.Errors? ==> r.beginCoverage == (if beginOut then message else Unmarked))
      && (r.Errors? ==> r.endCoverage == (if endOut then message else Unmarked))
  {
    if packageCoverage.Some? && !packageCoverage.value.beginCoverage.Missing? then
      var pkg := packageCoverage.value;
      var beginCoverageDate := MomentOf(row.beginCoverage);
      var endCoverageDate := EffectiveEnd(row.endCoverage);
      var packageBeginCoverageDate := MomentOf(pkg.beginCoverage);
      var packageEndCoverageDate := if pkg.endCoverage.Missing? then At(now) else MomentOf(pkg.endCoverage);
      var packageRange := Range(packageBeginCoverageDate, packageEndCoverageDate);
      var endDate := if pkg.endCoverage.Missing? then Present else Shown(packageEndCoverageDate);
      var message := Marked(OutsidePackage(packageBeginCoverageDate, endDate));
      var beginDateOutOfRange := !Contains(packageRange, beginCoverageDate);
      var endDateOutOfRange := !Contains(packageRange, endCoverageDate);
      if beginDateOutOfRange || endDateOutOfRange then
        Errors(if beginDateOutOfRange then message else Unmarked,
               if endDateOutOfRange then message else Unmarked)
      else
        NoErrors
    else
      NoErrors
  }

  // ---------------------------------------------------------------- validate

  /** The entry `validate` stores for row `index`: the first validator that reports something. */
  function RowResult(rows: seq<CoverageRow>, index: nat, pattern: string,
                     packageCoverage: Option<CoverageRow>, now: int): RowErrors
    requires index < |rows|
  {
    var row := rows[index];
    var format := ValidateDateFormat(row, pattern);
    if format.Errors? then format
    else
      var order := ValidateStartDateBeforeEndDate(row);
      if order.Errors? then order
      else
        var overlap := NoRangeOverlaps(row, rows, index);
        if overlap.Errors? then overlap
        else ValidateWithinPackageRange(row, packageCoverage, now)
  }

  /**
   * validate: one entry per row, entry `i` being row `i`'s result. `pattern` is the
   * locale's long date format and `now` the current instant, both supplied by the caller.
   */
  method Validate(customCoverages: seq<CoverageRow>, pattern: string,
                  packageCoverage: Option<CoverageRow>, now: int) returns (result: FormErrors)
    ensures |result.customCoverages| == |customCoverages|
    ensures forall i :: 0 <= i < |customCoverages| ==>
      result.customCoverages[i] == RowResult(customCoverages, i, pattern, packageCoverage, now)
  {
    var errors: seq<RowErrors> := [];
    var index := 0;
    while index < |customCoverages|
      invariant 0 <= index <= |customCoverages|
      invariant |errors| == index
      invariant forall i :: 0 <= i < index ==>
        errors[i] == RowResult(customCoverages, i, pattern, packageCoverage, now)
    {
      var dateRange := customCoverages[index];
      var dateRangeErrors := ValidateDateFormat(dateRange, pattern);
      if dateRangeErrors.NoErrors? {
        dateRangeErrors := ValidateStartDateBeforeEndDate(dateRange);
      }
      if dateRangeErrors.NoErrors? {
        dateRangeErrors := ValidateNoRangeOverlaps(dateRange, customCoverages, index);
      }
      if dateRangeErrors.NoErrors? {
        dateRangeErrors := ValidateWithinPackageRange(dateRange, packageCoverage, now);
      }
      errors := errors + [dateRangeErrors];
      index := index + 1;
    }
    return FormErrors(errors);
  }
}
