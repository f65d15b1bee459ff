/** The star partition of `components/ui/star-rating.tsx`: how many full,
    half and empty stars a rating is drawn with. The rating is an exact real
    number (no floating-point rounding); `maxRating` is a whole number, as
    every caller passes one. */
module StarRating {

  /** The `rating` prop: `NaN` or a number. */
  datatype Rating = NaN | Num(value: real)

  /** The stars drawn: `fullStars`, `hasHalfStar`, `emptyStars`. */
  datatype Stars = Stars(full: int, half: bool, empty: int)

  function Min(a: real, b: real): real { if a <= b then a else b }
  function Max(a: real, b: real): real { if a >= b then a else b }

  /** `validRating`: NaN becomes 0, anything else is clamped into
      [0, maxRating] (to 0 when maxRating is negative). */
  function ValidRating(rating: Rating, maxRating: int): (v: real)
    ensures rating.NaN? ==> v == 0.0
    ensures 0.0 <= v
    ensures maxRating >= 0 ==> v <= maxRating as real
    ensures rating.Num? && 0.0 <= rating.value <= maxRating as real ==> v == rating.value
    ensures rating.Num? && maxRating >= 0 && rating.value > maxRating as real ==> v == maxRating as real
    ensures rating.Num? && rating.value < 0.0 ==> v == 0.0
  {
    match rating
    case NaN => 0.0
    case Num(r) => Max(0.0, Min(r, maxRating as real))
  }

  /** The fractional part `validRating % 1` of a non-negative number. */
  function Fraction(v: real): (f: real)
    requires v >= 0.0
    ensures 0.0 <= f < 1.0
  {
    v - v.Floor as real
  }

  /** The three star counts. */
  function StarCounts(rating: Rating, maxRating: int): (s: Stars)
    ensures s.full == ValidRating(rating, maxRating).Floor
    ensures 0 <= s.full && (maxRating >= 0 ==> s.full <= maxRating)
    ensures s.half <==> Fraction(ValidRating(rating, maxRating)) >= 0.5
    ensures s.empty >= 0
    ensures maxRating >= 0 ==> s.full + (if s.half then 1 else 0) + s.empty == maxRating
  {
    var v := ValidRating(rating, maxRating);
    var full := v.Floor;
    var half := Fraction(v) >= 0.5;
    var rest := maxRating - full - (if half then 1 else 0);
    assert half ==> v >= full as real + 0.5;
    Stars(full, half, if rest < 0 then 0 else rest)
  }

  /** A rating at or above `maxRating` fills every star and never shows a
      half star. */
  lemma TopRatingHasNoHalfStar(r: real, maxRating: int)
    requires maxRating >= 0 && r >= maxRating as real
    ensures StarCounts(Num(r), maxRating) == Stars(maxRating, false, 0)
  {
    assert ValidRating(Num(r), maxRating) == maxRating as real;
    assert (maxRating as real).Floor == maxRating;
  }

  /** The defaults (rating 0 out of 5) draw five empty stars. */
  lemma DefaultStars()
    ensures StarCounts(Num(0.0), 5) == Stars(0, false, 5)
  {
    assert ValidRating(Num(0.0), 5) == 0.0;
    assert (0.0).Floor == 0;
  }

  /** A NaN rating draws as a rating of zero. */
  lemma NaNIsZero(maxRating: int)
    ensures StarCounts(NaN, maxRating) == StarCounts(Num(0.0), maxRating)
  {
  }
}
