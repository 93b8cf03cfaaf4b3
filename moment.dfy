/**
 * The small part of moment and moment-range that the coverage validator relies on.
 *
 * Their implementations are not part of this model; the definitions below are the
 * assumptions the rest of the model rests on:
 *  - a date is an instant in milliseconds since the epoch, or an invalid moment whose
 *    value is NaN, and every comparison involving NaN is false;
 *  - `isAfter` is strict, `isSame` is equality of instants;
 *  - a range's `contains(date)` and `contains(range)` are inclusive at both ends;
 *  - `overlaps` is strict intersection, so ranges that only touch do not overlap;
 *  - `isEqual` holds when both endpoints are the same instant.
 */
module Moment {

  /** A date field as the form delivers it: empty, text that does not parse, or a parsed instant (ms). */
  datatype DateField = Missing | Invalid | Date(ms: int)

  /** A moment object: a valid instant (ms since the epoch) or an invalid moment. */
  datatype Instant = At(ms: int) | NaN

  /** 9999-09-09T05:00:00.000Z, the far-future instant that stands for "no end date" on a row. */
  const PresentMs: int := 253392469200000

  /** `moment(x)` for a field that is present (a truthy value). */
  function MomentOf(f: DateField): (t: Instant)
    requires !f.Missing?
    ensures t.At? <==> f.Date?
    ensures t.At? ==> t.ms == f.ms
  {
    if f.Date? then At(f.ms) else NaN
  }

  /** `a < b` on moments: false when either is invalid. */
  predicate Before(a: Instant, b: Instant) {
    a.At? && b.At? && a.ms < b.ms
  }

  /** `a <= b` on moments: false when either is invalid. */
  predicate NotAfter(a: Instant, b: Instant) {
    a.At? && b.At? && a.ms <= b.ms
  }

  /** `a.isSame(b)`: false when either is invalid. */
  predicate Same(a: Instant, b: Instant) {
    a.At? && b.At? && a.ms == b.ms
  }

  /** `moment.range(start, end)`. */
  datatype Range = Range(start: Instant, end: Instant)

  /** `r.overlaps(o)`: the ranges share more than an endpoint. */
  predicate Overlaps(r: Range, o: Range) {
    Before(r.start, o.end) && Before(o.start, r.end)
  }

  /** `r.isEqual(o)`. */
  predicate IsEqual(r: Range, o: Range) {
    Same(r.start, o.start) && Same(r.end, o.end)
  }

  /** `r.contains(o)` for a range `o`, inclusive at both ends. */
  predicate ContainsRange(r: Range, o: Range) {
    NotAfter(r.start, o.start) && NotAfter(o.end, r.end)
  }

  /** `r.contains(t)` for a date `t`, inclusive at both ends. */
  predicate Contains(r: Range, t: Instant) {
    NotAfter(r.start, t) && NotAfter(t, r.end)
  }
}
