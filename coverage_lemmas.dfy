/** Properties of the coverage validator that relate several rows or several calls. */
module CoverageProperties {
  import opened Common
  import opened Moment
  import opened CoverageValidation

  /** A row whose dates all parse and whose effective end is strictly after its begin. */
  predicate ProperRow(row: CoverageRow) {
    row.beginCoverage.Date? && !row.endCoverage.Invalid? &&
    row.beginCoverage.ms < EndMs(row.endCoverage).value
  }

  /** The shape of an overlap error: a message on the begin field, the end field outlined. */
  predicate IsOverlapError(r: RowErrors) {
    r.Errors? && r.beginCoverage.Marked? && r.beginCoverage.message.OverlapsWith? && r.endCoverage == Outlined
  }

  /** Reading of the three overlap tests on parsed dates: a shared stretch, or the sibling holding the candidate. */
  lemma ConflictsInMs(sibling: CoverageRow, candidate: CoverageRow)
    requires sibling.beginCoverage.Date? && candidate.beginCoverage.Date?
    ensures Conflicts(RangeOf(sibling), RangeOf(candidate)) <==>
      && EndMs(sibling.endCoverage).Some? && EndMs(candidate.endCoverage).Some?
      && var (sb, se) := (sibling.beginCoverage.ms, EndMs(sibling.endCoverage).value);
         var (cb, ce) := (candidate.beginCoverage.ms, EndMs(candidate.endCoverage).value);
         (sb < ce && cb < se) || (sb <= cb && ce <= se)
  {
  }

  /** Between rows of positive length, the overlap test is symmetric: it is plain intersection. */
  lemma ConflictsSymmetric(a: CoverageRow, b: CoverageRow)
    requires ProperRow(a) && ProperRow(b)
    ensures Conflicts(RangeOf(a), RangeOf(b)) <==> Conflicts(RangeOf(b), RangeOf(a))
  {
    ConflictsInMs(a, b);
    ConflictsInMs(b, a);
  }

  /** Ranges that only share an endpoint do not conflict, in either direction. */
  lemma TouchingRangesDoNotConflict(a: CoverageRow, b: CoverageRow)
    requires ProperRow(a) && ProperRow(b)
    requires a.endCoverage.Date? && a.endCoverage.ms == b.beginCoverage.ms
    ensures !Conflicts(RangeOf(a), RangeOf(b)) && !Conflicts(RangeOf(b), RangeOf(a))
  {
    ConflictsInMs(a, b);
    ConflictsInMs(b, a);
  }

  /** A row with no begin date, or one that does not parse, gets the format error on its begin field only. */
  lemma FormatErrorComesFirst(rows: seq<CoverageRow>, index: nat, pattern: string,
                              packageCoverage: Option<CoverageRow>, now: int)
    requires index < |rows| && !rows[index].beginCoverage.Date?
    ensures RowResult(rows, index, pattern, packageCoverage, now) == Errors(Marked(EnterDateIn(pattern)), Unmarked)
  {
  }

  /** An inverted row reports the order error alone, whatever its siblings and the package bound. */
  lemma OrderErrorComesBeforeOverlapAndBound(rows: seq<CoverageRow>, index: nat, pattern: string,
                                             packageCoverage: Option<CoverageRow>, now: int)
    requires index < |rows|
    requires rows[index].beginCoverage.Date? && rows[index].endCoverage.Date?
    requires rows[index].endCoverage.ms < rows[index].beginCoverage.ms
    ensures RowResult(rows, index, pattern, packageCoverage, now) == Errors(Marked(StartAfterEnd), Unmarked)
  {
  }

  /** Begin equal to end is in order: such a row with no conflicting sibling and no package bound is accepted. */
  lemma SameDayRangeIsAccepted(rows: seq<CoverageRow>, index: nat, pattern: string, now: int)
    requires index < |rows|
    requires rows[index].beginCoverage.Date? && rows[index].endCoverage == rows[index].beginCoverage
    requires forall k :: 0 <= k < |rows| ==> !ConflictsAt(rows[index], rows, index, k)
    ensures RowResult(rows, index, pattern, None, now) == NoErrors
  {
  }

  /** A parsed, ordered row with a conflicting sibling names the lowest such sibling and outlines its end field. */
  lemma OverlapErrorNamesFirstConflict(rows: seq<CoverageRow>, index: nat, pattern: string,
                                       packageCoverage: Option<CoverageRow>, now: int, j: nat)
    requires index < |rows| && j < |rows|
    requires rows[index].beginCoverage.Date?
    requires ValidateStartDateBeforeEndDate(rows[index]).NoErrors?
    requires ConflictsAt(rows[index], rows, index, j)
    requires forall k :: 0 <= k < j ==> !ConflictsAt(rows[index], rows, index, k)
    ensures RowResult(rows, index, pattern, packageCoverage, now) == OverlapError(rows[j])
    ensures IsOverlapError(RowResult(rows, index, pattern, packageCoverage, now))
  {
    var r := NoRangeOverlaps(rows[index], rows, index);
    var j' :| 0 <= j' < |rows| && ConflictsAt(rows[index], rows, index, j')
              && (forall k :: 0 <= k < j' ==> !ConflictsAt(rows[index], rows, index, k))
              && r == OverlapError(rows[j']);
    assert j' == j;
  }

  /** The entry is `false` exactly when all four validators pass. */
  lemma NoErrorsIffAllValidatorsPass(rows: seq<CoverageRow>, index: nat, pattern: string,
                                     packageCoverage: Option<CoverageRow>, now: int)
    requires index < |rows|
    ensures RowResult(rows, index, pattern, packageCoverage, now).NoErrors? <==>
      && rows[index].beginCoverage.Date?
      && !(rows[index].endCoverage.Date? && rows[index].endCoverage.ms < rows[index].beginCoverage.ms)
      && (forall k :: 0 <= k < |rows| ==> !ConflictsAt(rows[index], rows, index, k))
      && ValidateWithinPackageRange(rows[index], packageCoverage, now).NoErrors?
  {
  }

  /** Two proper, ordered rows that overlap each other both report an overlap error. */
  lemma MutualOverlapFlagsBothRows(rows: seq<CoverageRow>, i: nat, j: nat, pattern: string,
                                   packageCoverage: Option<CoverageRow>, now: int)
    requires i < |rows| && j < |rows| && i != j
    requires ProperRow(rows[i]) && ProperRow(rows[j])
    requires Conflicts(RangeOf(rows[j]), RangeOf(rows[i]))
    ensures IsOverlapError(RowResult(rows, i, pattern, packageCoverage, now))
    ensures IsOverlapError(RowResult(rows, j, pattern, packageCoverage, now))
  {
    ConflictsSymmetric(rows[i], rows[j]);
    assert ConflictsAt(rows[i], rows, i, j);
    assert ConflictsAt(rows[j], rows, j, i);
  }

  /** "+ Add date range" pushes an empty row: the other rows' entries do not change. */
  lemma EmptyRowChangesNoOtherEntry(rows: seq<CoverageRow>, index: nat, extra: CoverageRow, pattern: string,
                                    packageCoverage: Option<CoverageRow>, now: int)
    requires index < |rows| && extra.beginCoverage.Missing?
    ensures RowResult(rows + [extra], index, pattern, packageCoverage, now)
         == RowResult(rows, index, pattern, packageCoverage, now)
    ensures RowResult(rows + [extra], |rows|, pattern, packageCoverage, now).Errors?
  {
    var rows' := rows + [extra];
    assert rows'[index] == rows[index];
    var row := rows[index];
    if row.beginCoverage.Date? {
      forall k | 0 <= k < |rows'|
        ensures ConflictsAt(row, rows', index, k) <==> k < |rows| && ConflictsAt(row, rows, index, k)
      {
        if k < |rows| { assert rows'[k] == rows[k]; }
      }
      FirstConflictDeterminedByConflicts(row, rows', rows, index);
    }
  }

  /** The first conflict depends only on which siblings conflict, not on the rest of the list. */
  lemma FirstConflictDeterminedByConflicts(row: CoverageRow, rows: seq<CoverageRow>, other: seq<CoverageRow>, index: nat)
    requires row.beginCoverage.Date?
    requires |other| <= |rows|
    requires forall k :: 0 <= k < |rows| ==>
      (ConflictsAt(row, rows, index, k) <==> k < |other| && ConflictsAt(row, other, index, k))
    ensures FirstConflict(row, rows, index, 0).Some? <==> FirstConflict(row, other, index, 0).Some?
    ensures FirstConflict(row, rows, index, 0).Some? ==>
      FirstConflict(row, rows, index, 0).value == FirstConflict(row, other, index, 0).value
  {
  }

  /** An end date that does not parse passes every validator when the package has no custom coverage. */
  lemma UnparseableEndPassesWithoutPackageBound(rows: seq<CoverageRow>, index: nat, pattern: string, now: int)
    requires index < |rows|
    requires rows[index].beginCoverage.Date? && rows[index].endCoverage.Invalid?
    ensures RowResult(rows, index, pattern, None, now) == NoErrors
  {
  }

  /**
   * An open row against an open package bound: the row ends at the present sentinel, the
   * package at `now`, so the row's end field is flagged whenever `now` is before the sentinel.
   */
  lemma OpenRowExceedsOpenPackage(row: CoverageRow, packageCoverage: CoverageRow, now: int)
    requires row.beginCoverage.Date? && row.endCoverage.Missing?
    requires packageCoverage.beginCoverage.Date? && packageCoverage.endCoverage.Missing?
    requires now < PresentMs
    ensures ValidateWithinPackageRange(row, Some(packageCoverage), now).endCoverage
         == Marked(OutsidePackage(At(packageCoverage.beginCoverage.ms), Present))
  {
  }

  /**
   * Without positive length the overlap test is one-sided: a one-day row at the start of
   * another row is reported against it, while the longer row is not reported.
   */
  lemma ZeroLengthRowIsReportedOneSided(pattern: string, now: int)
    ensures var rows := [CoverageRow(Date(5), Date(10)), CoverageRow(Date(5), Date(5))];
      && RowResult(rows, 0, pattern, None, now) == NoErrors
      && RowResult(rows, 1, pattern, None, now) == OverlapError(rows[0])
  {
    var rows := [CoverageRow(Date(5), Date(10)), CoverageRow(Date(5), Date(5))];
    assert !ConflictsAt(rows[0], rows, 0, 1);
    assert ConflictsAt(rows[1], rows, 1, 0);
  }

  /** Two overlapping rows report each other; a row without a begin date is skipped by its siblings. */
  lemma OverlapAndSkipExamples(pattern: string, now: int)
    ensures var rows := [CoverageRow(Date(10), Date(60)), CoverageRow(Date(30), Date(90))];
      && RowResult(rows, 0, pattern, None, now) == OverlapError(rows[1])
      && RowResult(rows, 1, pattern, None, now) == OverlapError(rows[0])
    ensures var rows := [CoverageRow(Date(10), Date(60)), CoverageRow(Missing, Missing)];
      && RowResult(rows, 0, pattern, None, now) == NoErrors
      && RowResult(rows, 1, pattern, None, now) == Errors(Marked(EnterDateIn(pattern)), Unmarked)
  {
    var rows := [CoverageRow(Date(10), Date(60)), CoverageRow(Date(30), Date(90))];
    assert ConflictsAt(rows[0], rows, 0, 1);
    assert ConflictsAt(rows[1], rows, 1, 0);
  }
}
