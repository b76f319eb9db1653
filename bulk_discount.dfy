/**
 * The validations of a bulk discount: `percent_discount` must be present,
 * an integer, greater than 1 and less than 100; `threshold` must be present,
 * an integer and greater than 1. Every violated rule of both fields is
 * reported; validation does not stop at the first failure.
 */
module BulkDiscounts {
  import opened Records

  /** What a submitted form field held. */
  datatype RawField =
    | Blank             // missing, empty or only whitespace
    | NotNumeric        // text that is not a number, e.g. "Batman"
    | NotInteger        // a number with a fractional part, e.g. "10.5"
    | Integer(value: int)

  datatype Field = PercentDiscount | Threshold

  /** The kinds of error the validations add to a field. */
  datatype ErrorKind =
    | CantBeBlank                    // "can't be blank"
    | NotANumber                     // "is not a number"
    | NotAnInteger                   // "must be an integer"
    | MustBeGreaterThan(bound: int)  // "must be greater than <bound>"
    | MustBeLessThan(bound: int)     // "must be less than <bound>"

  datatype ValidationError = ValidationError(field: Field, kind: ErrorKind)

  /** `greater_than: 1` of both fields. */
  const LowerBound: int := 1
  /** `less_than: 100` of `percent_discount`. */
  const PercentUpperBound: int := 100

  /** The invariant every stored discount satisfies. */
  predicate ValidDiscount(d: BulkDiscount)
  {
    LowerBound < d.percentDiscount < PercentUpperBound && LowerBound < d.threshold
  }

  /** `raw` passes `presence: true, numericality: {only_integer: true, greater_than: lo}`
      and, when `hi` is given, `less_than: hi`. */
  predicate Acceptable(raw: RawField, lo: int, hi: Option<int>)
  {
    raw.Integer? && lo < raw.value && (hi.Some? ==> raw.value < hi.value)
  }

  /**
   * The errors one field collects, in the order its validators run: the
   * presence check first, then numericality, which stops at "is not a
   * number" or "must be an integer" before it compares with the bounds.
   */
  function FieldErrors(raw: RawField, lo: int, hi: Option<int>): (r: seq<ErrorKind>)
    ensures r == [] <==> Acceptable(raw, lo, hi)
    ensures CantBeBlank in r <==> raw.Blank?
    ensures NotANumber in r <==> raw.Blank? || raw.NotNumeric?
    ensures NotAnInteger in r <==> raw.NotInteger?
    ensures MustBeGreaterThan(lo) in r <==> raw.Integer? && raw.value <= lo
    ensures hi.Some? ==> (MustBeLessThan(hi.value) in r <==> raw.Integer? && hi.value <= raw.value)
    ensures forall k :: k in r ==> k == CantBeBlank || k == NotANumber || k == NotAnInteger
                                   || k == MustBeGreaterThan(lo) || (hi.Some? && k == MustBeLessThan(hi.value))
  {
    match raw
    case Blank => [CantBeBlank, NotANumber]
    case NotNumeric => [NotANumber]
    case NotInteger => [NotAnInteger]
    case Integer(n) =>
      (if n <= lo then [MustBeGreaterThan(lo)] else [])
      + (if hi.Some? && hi.value <= n then [MustBeLessThan(hi.value)] else [])
  }

  function PercentErrors(raw: RawField): seq<ErrorKind>
  {
    FieldErrors(raw, LowerBound, Some(PercentUpperBound))
  }

  function ThresholdErrors(raw: RawField): seq<ErrorKind>
  {
    FieldErrors(raw, LowerBound, None)
  }

  function Tag(field: Field, kinds: seq<ErrorKind>): (r: seq<ValidationError>)
    ensures |r| == |kinds|
    ensures forall i :: 0 <= i < |r| ==> r[i] == ValidationError(field, kinds[i])
    ensures forall e :: e in r <==> e.field == field && e.kind in kinds
  {
    if kinds == [] then [] else [ValidationError(field, kinds[0])] + Tag(field, kinds[1..])
  }

  /** All errors of a submitted discount form: the percent's, then the threshold's. */
  function Validate(percent: RawField, threshold: RawField): (errs: seq<ValidationError>)
    ensures errs == [] <==>
              (percent.Integer? && LowerBound < percent.value < PercentUpperBound
               && threshold.Integer? && LowerBound < threshold.value)
  {
    Tag(PercentDiscount, PercentErrors(percent)) + Tag(Threshold, ThresholdErrors(threshold))
  }

  /** Creating or updating a discount: saved when it validates, otherwise every error. */
  function Build(merchantId: nat, percent: RawField, threshold: RawField): (r: Result<BulkDiscount, seq<ValidationError>>)
    ensures r.Ok? ==> ValidDiscount(r.value) && r.value.merchantId == merchantId
                      && percent == Integer(r.value.percentDiscount)
                      && threshold == Integer(r.value.threshold)
    ensures r.Err? ==> r.error != [] && r.error == Validate(percent, threshold)
    ensures r.Ok? <==> Validate(percent, threshold) == []
  {
    var errs := Validate(percent, threshold);
    if errs == [] then Ok(BulkDiscount(merchantId, percent.value, threshold.value))
    else Err(errs)
  }

  /** Errors are collected from both fields: a percent error is reported whatever
      the threshold holds, and the other way round. */
  lemma ErrorsCollected(percent: RawField, threshold: RawField, e: ValidationError)
    ensures e in Validate(percent, threshold) <==>
              (e.field == PercentDiscount && e.kind in PercentErrors(percent))
              || (e.field == Threshold && e.kind in ThresholdErrors(threshold))
  {
  }

  /** A blank field reports both "can't be blank" and "is not a number". */
  lemma BlankFields()
    ensures Validate(Blank, Blank) ==
              [ValidationError(PercentDiscount, CantBeBlank), ValidationError(PercentDiscount, NotANumber),
               ValidationError(Threshold, CantBeBlank), ValidationError(Threshold, NotANumber)]
  {
  }

  /** Text that is not a number reports "is not a number" on each field. */
  lemma NonNumericFields()
    ensures Validate(NotNumeric, NotNumeric) ==
              [ValidationError(PercentDiscount, NotANumber), ValidationError(Threshold, NotANumber)]
  {
  }

  /** The bounds are strict: 2 and 99 are accepted percents, 1 and 100 are not. */
  lemma PercentBounds()
    ensures Validate(Integer(2), Integer(2)) == []
    ensures Validate(Integer(99), Integer(10)) == []
    ensures Validate(Integer(1), Integer(10)) == [ValidationError(PercentDiscount, MustBeGreaterThan(1))]
    ensures Validate(Integer(100), Integer(10)) == [ValidationError(PercentDiscount, MustBeLessThan(100))]
  {
  }

  /** Out-of-range values on both fields are reported together. */
  lemma OutOfRangeFields()
    ensures Validate(Integer(101), Integer(-1)) ==
              [ValidationError(PercentDiscount, MustBeLessThan(100)), ValidationError(Threshold, MustBeGreaterThan(1))]
    ensures Validate(Integer(-10), Integer(-10)) ==
              [ValidationError(PercentDiscount, MustBeGreaterThan(1)), ValidationError(Threshold, MustBeGreaterThan(1))]
    ensures Validate(Integer(-1), Integer(5)) == [ValidationError(PercentDiscount, MustBeGreaterThan(1))]
  {
  }
}
