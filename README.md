# Custom coverage validation, package selection and title creation

A Dafny model of three pieces of the e-holdings user interface:

- the **custom coverage validator** (`validate` and its four validators): for every
  date-range row of a custom coverage form it reports the first of four problems — a
  begin date that is missing or does not parse, a begin date after the end date, a
  sibling row that overlaps, equals or contains the row, or a row that leaves the
  parent package's own custom coverage — and nothing when none applies;
- the **package detail handlers** that flip a package's selection, visibility and
  "allow the knowledge base to add titles" flag, and store a submitted custom coverage,
  all by changing the package record in place;
- the **new-title payload**: form identifiers chosen as one of four flattened kinds are
  expanded into type and subtype, and the chosen package becomes the title's resource.

Modules: `Common` (an option type), `Moment` (the date library behaviour the validator
relies on), `CoverageValidation` (the validator), `CoverageProperties` (properties that
relate several rows or calls), `PackageShow` (a class for the package record) and
`TitleCreate` (pure functions for the payload).

Assumptions about moment and moment-range, whose code is not part of this model:

- a date is an instant in milliseconds since the epoch, or an invalid moment; every
  comparison involving an invalid moment is false (its value is NaN);
- `overlaps` is strict intersection (`a.start < b.end && b.start < a.end`), so ranges that
  only touch do not overlap; `isEqual` is equality of both endpoints; `contains` is
  inclusive at both ends, for a date and for a range;
- `moment()` (the current instant) is the parameter `now`; the locale's long date
  pattern is the parameter `pattern`.

A row without an end date ends at the sentinel 9999-09-09T05:00:00.000Z
(`Moment.PresentMs`); a package coverage without an end date ends at `now`.

Behaviour the proofs make explicit:

- the overlap test is one-sided when a row has no length: a one-day row on the first day
  of a longer row is reported against it, while the longer row is not reported
  (`CoverageProperties.ZeroLengthRowIsReportedOneSided`); between rows of positive
  length the test is plain intersection and symmetric;
- only the begin date is checked for format: a row whose end date does not parse is
  accepted when the package has no custom coverage
  (`CoverageProperties.UnparseableEndPassesWithoutPackageBound`).

## Model

| member | source | states |
|---|---|---|
| `CoverageValidation.ValidateDateFormat` | src/components/resource/_fields/custom-coverage/resource-coverage-fields.js:132-142 | reports an error exactly when the begin date is missing or does not parse; the error carries the locale's pattern on `beginCoverage` and leaves `endCoverage` unmarked |
| `CoverageValidation.ValidateStartDateBeforeEndDate` | src/components/resource/_fields/custom-coverage/resource-coverage-fields.js:117-125 | reports an error exactly when the end date parses and is strictly before the begin date (equal dates and an unparseable end pass); only `beginCoverage` is flagged |
| `CoverageValidation.FirstConflict` | src/components/resource/_fields/custom-coverage/resource-coverage-fields.js:222-266 | the index found is the lowest sibling at or after `from` that is not the row itself, has a begin date and overlaps, equals or contains the row; `None` means no such sibling exists |
| `CoverageValidation.NoRangeOverlaps` | src/components/resource/_fields/custom-coverage/resource-coverage-fields.js:215-269 | no error exactly when no sibling conflicts; otherwise the error names the lowest-index conflicting sibling's begin and end (or "Present") and outlines `endCoverage` |
| `CoverageValidation.ValidateNoRangeOverlaps` | src/components/resource/_fields/custom-coverage/resource-coverage-fields.js:215-269 | the index loop with `continue` and early return computes exactly that first-conflict result |
| `CoverageValidation.ValidateWithinPackageRange` | src/components/resource/_fields/custom-coverage/resource-coverage-fields.js:151-204 | no error without a package coverage or without its begin; otherwise begin and effective end are each tested for inclusive membership in [package begin, package end or now], each field flagged on its own with the package window message, and an error exactly when either is outside |
| `CoverageValidation.Validate` | src/components/resource/_fields/custom-coverage/resource-coverage-fields.js:271-290 | one entry per row, and entry `i` is row `i`'s first failing validator in the order format, order, overlap, bound, or `false` |
| `CoverageValidation.EndMsAgrees` | src/components/resource/_fields/custom-coverage/resource-coverage-fields.js:216-219 | the millisecond effective end used by the contracts is the end date, or the present sentinel when open, as the range code computes it |
| `CoverageProperties.ConflictsInMs` | src/components/resource/_fields/custom-coverage/resource-coverage-fields.js:260-262 | on parsed dates the three overlap tests amount to a shared stretch or the sibling holding the candidate; an unparseable end never conflicts |
| `CoverageProperties.ConflictsSymmetric` | src/components/resource/_fields/custom-coverage/resource-coverage-fields.js:260-262 | between rows of positive length the overlap test is symmetric |
| `CoverageProperties.TouchingRangesDoNotConflict` | src/components/resource/_fields/custom-coverage/resource-coverage-fields.js:260-262 | a range ending on the day the next begins conflicts with it in neither direction |
| `CoverageProperties.FormatErrorComesFirst` | src/components/resource/_fields/custom-coverage/resource-coverage-fields.js:280-284 | a row with a missing or unparseable begin gets the format error on `beginCoverage` only, whatever its end, siblings or package bound |
| `CoverageProperties.OrderErrorComesBeforeOverlapAndBound` | src/components/resource/_fields/custom-coverage/resource-coverage-fields.js:280-284 | an inverted row reports only the order error, even when it also overlaps a sibling or leaves the bound |
| `CoverageProperties.SameDayRangeIsAccepted` | src/components/resource/_fields/custom-coverage/resource-coverage-fields.js:120-124 | a row whose begin equals its end passes the order check, and with no conflicting sibling and no package bound its entry is `false` |
| `CoverageProperties.OverlapErrorNamesFirstConflict` | src/components/resource/_fields/custom-coverage/resource-coverage-fields.js:222-264 | a parsed, ordered row whose lowest conflicting sibling is `j` gets the overlap error naming row `j` |
| `CoverageProperties.NoErrorsIffAllValidatorsPass` | src/components/resource/_fields/custom-coverage/resource-coverage-fields.js:280-286 | a row's entry is `false` exactly when its begin parses, it is in order, no sibling conflicts and it lies within the package bound |
| `CoverageProperties.MutualOverlapFlagsBothRows` | src/components/resource/_fields/custom-coverage/resource-coverage-fields.js:260-264 | two proper rows that overlap both get an overlap error |
| `CoverageProperties.FirstConflictDeterminedByConflicts` | src/components/resource/_fields/custom-coverage/resource-coverage-fields.js:222-266 | two row lists with the same conflicting siblings give the same first conflict |
| `CoverageProperties.EmptyRowChangesNoOtherEntry` | src/components/resource/_fields/custom-coverage/resource-coverage-fields.js:222-228 | appending a row without a begin date leaves every other row's entry unchanged, and the new row gets an error |
| `CoverageProperties.UnparseableEndPassesWithoutPackageBound` | src/components/resource/_fields/custom-coverage/resource-coverage-fields.js:117-142 | a row with a parsed begin and an unparseable end gets `false` when the package has no custom coverage |
| `CoverageProperties.OpenRowExceedsOpenPackage` | src/components/resource/_fields/custom-coverage/resource-coverage-fields.js:154-165 | an open row against an open package coverage has its end flagged whenever `now` is before the sentinel |
| `CoverageProperties.ZeroLengthRowIsReportedOneSided` | src/components/resource/_fields/custom-coverage/resource-coverage-fields.js:260-262 | of rows [5,10] and [5,5], only the second is reported, against the first |
| `CoverageProperties.OverlapAndSkipExamples` | src/components/resource/_fields/custom-coverage/resource-coverage-fields.js:222-228 | two overlapping rows report each other; a row without a begin date is skipped by its sibling and gets the format error |
| `PackageShow.DayOf` | src/routes/package-show.js:79-80 | the day found is the UTC day holding the instant |
| `PackageShow.FormatCoverageDate` | src/routes/package-show.js:79-80 | an absent value is stored as null, an unparseable one as moment's 'Invalid date', a date as the day holding it |
| `PackageShow.PackageRecord.ToggleSelected` | src/routes/package-show.js:45-62 | negates `isSelected`; `selectedCount` becomes `titleCount` when selected and 0 otherwise; selecting sets `allowKbToAddTitles`; deselecting un-hides, clears the custom coverage and clears `allowKbToAddTitles` |
| `PackageShow.PackageRecord.ToggleHidden` | src/routes/package-show.js:64-68 | negates `visibilityData.isHidden` and changes no other field |
| `PackageShow.PackageRecord.CustomCoverageSubmitted` | src/routes/package-show.js:77-82 | the custom coverage becomes the formatted begin and end, null where a value is absent |
| `PackageShow.PackageRecord.ToggleAllowKbToAddTitles` | src/routes/package-show.js:84-88 | negates `allowKbToAddTitles` and changes no other field |
| `TitleCreate.ExpandIdentifier` | src/routes/title-create.js:48-52 | keeps the `id`; an absent or 0 kind gives ISSN/Online, 1 ISSN/Print, 2 ISBN/Online, 3 ISBN/Print; an index outside the table adds no kind |
| `TitleCreate.ExpandIdentifiers` | src/routes/title-create.js:48-53 | keeps the list's length and order, expanding each identifier in place |
| `TitleCreate.KindIndex` | src/routes/title-create.js:41-46 | every kind sits in the table at the index found |
| `TitleCreate.ExpandThenFlatten` | src/routes/title-create.js:41-53 | expanding an in-table identifier and flattening it back gives the identifier, 0 written as absent |
| `TitleCreate.ExpandIdentifierInjective` | src/routes/title-create.js:41-53 | two in-table identifiers expand alike exactly when they agree up to the spelling of the first kind |
| `TitleCreate.CreateTitlePayload` | src/routes/title-create.js:55-64 | the payload has no `packageId`, has `resources == [{ packageId }]`, identifiers that are the form's identifiers each expanded in order, and every other attribute unchanged |
| `TitleCreate.PayloadRoundTrip` | src/routes/title-create.js:55-64 | reading the form back from the payload gives the form's values, identifiers normalised |

## Left out

- Rendering: the form fields, the `FormattedDate` and `<span>` messages; messages are structured payloads (`CoverageValidation.Message`).
- Date parsing and the locale: parsing text into an instant and `moment.locale` are library and global state; a field arrives already classified as missing, unparseable or an instant, and the long date pattern is a parameter.
- Time zones: instants are milliseconds in UTC; `PackageShow.DayOf` takes the UTC day, and the 'YYYY-MM-DD' text is kept as the day number.
- `moment()` is read once per call to `validate` as the parameter `now`, where the source reads the clock for each row.
- Order, overlap and bound validators are modelled only for rows whose begin date parses, the only rows `validate` hands them; `moment(undefined)` (the current instant) is not modelled.
- Network and lifecycle: `updatePackage`, `createTitle`'s request, `getPackage`, `getPackageTitles`, `unloadCustomerResources` and the React lifecycle methods; each handler's save after its change is not modelled.
- `TitleCreate.CreateTitlePayload`: covers the attributes the form's initial values name; attributes beyond those, and `flattenedType` values given as text, are not modelled.
- `PackageShow.PackageRecord.CustomCoverageSubmitted`: keys other than the two dates that the existing custom coverage object may hold are not modelled.
- The route and view glue (resource show page, search form, title edit form, provider edit route) and the UI acceptance tests hold no algorithm of this core.
