/**
 * The package detail route's handlers. Each one changes the package record in place
 * and then saves it; the save is a request to the server and is not part of this model.
 */
module PackageShow {
  import opened Moment

  const MsPerDay: int := 86400000

  /**
   * A date held in a package's custom coverage: the key is absent (a fresh `{}`), `null`,
   * the 'YYYY-MM-DD' text of a day (kept as the day number since the epoch), or the
   * text 'Invalid date' that moment writes for a date it cannot read.
   */
  datatype StoredDate = Absent | Null | Day(day: int) | InvalidDate

  /** `model.customCoverage`. */
  datatype CustomCoverage = CustomCoverage(beginCoverage: StoredDate, endCoverage: StoredDate)

  /** The submitted values of the package coverage form. */
  datatype CoverageValues = CoverageValues(beginCoverage: DateField, endCoverage: DateField)

  /** The UTC day that holds the instant `ms`. */
  function DayOf(ms: int): (day: int)
    ensures day * MsPerDay <= ms < day * MsPerDay + MsPerDay
  {
    ms / MsPerDay
  }

  /** The date stored for a submitted value: null when none was given, otherwise the day it falls on. */
  function FormatCoverageDate(f: DateField): (d: StoredDate)
    ensures d == Null <==> f.Missing?
    ensures d == InvalidDate <==> f.Invalid?
    ensures f.Date? ==> d.Day? && d.day * MsPerDay <= f.ms < d.day * MsPerDay + MsPerDay
  {
    match f
    case Missing => Null
    case Invalid => InvalidDate
    case Date(ms) => Day(DayOf(ms))
  }

  /** `model.visibilityData`, a nested object the handlers update in place. */
  class VisibilityData {
    var isHidden: bool

    constructor (isHidden: bool)
      ensures this.isHidden == isHidden
    {
      this.isHidden := isHidden;
    }
  }

  /** The package record the route hands to its view and saves after each change. */
  class PackageRecord {
    var isSelected: bool
    var selectedCount: int
    var titleCount: int
    var allowKbToAddTitles: bool
    const visibilityData: VisibilityData
    var customCoverage: CustomCoverage

    constructor (isSelected: bool, selectedCount: int, titleCount: int, allowKbToAddTitles: bool,
                 isHidden: bool, customCoverage: CustomCoverage)
      ensures this.isSelected == isSelected && this.selectedCount == selectedCount
      ensures this.titleCount == titleCount && this.allowKbToAddTitles == allowKbToAddTitles
      ensures fresh(visibilityData) && visibilityData.isHidden == isHidden
      ensures this.customCoverage == customCoverage
    {
      this.isSelected := isSelected;
      this.selectedCount := selectedCount;
      this.titleCount := titleCount;
      this.allowKbToAddTitles := allowKbToAddTitles;
      this.visibilityData := new VisibilityData(isHidden);
      this.customCoverage := customCoverage;
    }

    /** A deselected package carries no customisation: shown, no custom coverage, KB may not add titles. */
    predicate HasNoCustomizations()
      reads this, visibilityData
    {
      !visibilityData.isHidden && customCoverage == CustomCoverage(Absent, Absent) && !allowKbToAddTitles
    }

    /**
     * toggleSelected: flips the selection; all titles count as selected when the package is,
     * none when it is not. Selecting lets the knowledge base add titles; deselecting clears
     * every customisation.
     */
    method ToggleSelected()
      modifies this, visibilityData
      ensures isSelected == !old(isSelected)
      ensures selectedCount == (if isSelected then titleCount else 0)
      ensures titleCount == old(titleCount)
      ensures isSelected ==> allowKbToAddTitles
      ensures isSelected ==> visibilityData.isHidden == old(visibilityData.isHidden)
      ensures isSelected ==> customCoverage == old(customCoverage)
      ensures !isSelected ==> HasNoCustomizations()
    {
      isSelected := !isSelected;
      selectedCount := if isSelected then titleCount else 0;

      if isSelected {
        allowKbToAddTitles := true;
      }
      if !isSelected {
        visibilityData.isHidden := false;
        customCoverage := CustomCoverage(Absent, Absent);
        allowKbToAddTitles := false;
      }
    }

    /** toggleHidden: flips `visibilityData.isHidden` and nothing else. */
    method ToggleHidden()
      modifies visibilityData
      ensures visibilityData.isHidden == !old(visibilityData.isHidden)
      ensures unchanged(this)
    {
      visibilityData.isHidden := !visibilityData.isHidden;
    }

    /** customCoverageSubmitted: stores each submitted date as its day, or null when none was given. */
    method CustomCoverageSubmitted(values: CoverageValues)
      modifies this`customCoverage
      ensures customCoverage == CustomCoverage(FormatCoverageDate(values.beginCoverage),
                                               FormatCoverageDate(values.endCoverage))
      ensures unchanged(visibilityData)
    {
      customCoverage := customCoverage.(beginCoverage := FormatCoverageDate(values.beginCoverage));
      customCoverage := customCoverage.(endCoverage := FormatCoverageDate(values.endCoverage));
    }

    /** toggleAllowKbToAddTitles: flips `allowKbToAddTitles` and nothing else. */
    method ToggleAllowKbToAddTitles()
      modifies this`allowKbToAddTitles
      ensures allowKbToAddTitles == !old(allowKbToAddTitles)
      ensures unchanged(visibilityData)
    {
      allowKbToAddTitles := !allowKbToAddTitles;
    }
  }
}
