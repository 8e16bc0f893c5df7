/** `xtrading_models.bar`: an OHLCV bar, which `NewBar` accepts only when
    its date is present and its four prices are in a consistent order. */
module Bars {
  import opened Wrappers
  import opened Time

  datatype BarData = BarData(date: Timestamp, open: real, high: real, low: real, close: real, volume: int)

  /** The five relations `validate_ohlc` checks. */
  datatype Relation =
    | HighAtLeastLow
    | HighAtLeastOpen
    | HighAtLeastClose
    | LowAtMostOpen
    | LowAtMostClose

  /** The position of a relation in the order the validator checks them. */
  function Rank(rel: Relation): nat
  {
    match rel
    case HighAtLeastLow => 0
    case HighAtLeastOpen => 1
    case HighAtLeastClose => 2
    case LowAtMostOpen => 3
    case LowAtMostClose => 4
  }

  predicate Holds(b: BarData, rel: Relation)
  {
    match rel
    case HighAtLeastLow => b.high >= b.low
    case HighAtLeastOpen => b.high >= b.open
    case HighAtLeastClose => b.high >= b.close
    case LowAtMostOpen => b.low <= b.open
    case LowAtMostClose => b.low <= b.close
  }

  /** The two prices a relation compares, as its error message shows them. */
  function Sides(b: BarData, rel: Relation): (real, real)
  {
    match rel
    case HighAtLeastLow => (b.high, b.low)
    case HighAtLeastOpen => (b.high, b.open)
    case HighAtLeastClose => (b.high, b.close)
    case LowAtMostOpen => (b.low, b.open)
    case LowAtMostClose => (b.low, b.close)
  }

  /** "High (left) must be >= Low (right)" and its four siblings. */
  datatype OhlcError = OhlcError(relation: Relation, left: real, right: real)

  datatype BarError =
    | DateMissing        // "date cannot be null"
    | Ohlc(ohlc: OhlcError)

  function Min(x: real, y: real): real { if x <= y then x else y }
  function Max(x: real, y: real): real { if x <= y then y else x }

  /** `validate_ohlc`: the bar is accepted unchanged when all five relations
      hold; otherwise the error names the first relation, in checking order,
      that fails, with the two prices it compared. */
  function ValidateOhlc(b: BarData): (r: Result<BarData, OhlcError>)
    ensures r.Success? <==> forall rel :: Holds(b, rel)
    ensures r.Success? ==> r.value == b
    ensures r.Failure? ==>
      && !Holds(b, r.error.relation)
      && (forall rel :: Rank(rel) < Rank(r.error.relation) ==> Holds(b, rel))
      && (r.error.left, r.error.right) == Sides(b, r.error.relation)
  {
    if b.high < b.low then
      assert !Holds(b, HighAtLeastLow);
      Failure(OhlcError(HighAtLeastLow, b.high, b.low))
    else if b.high < b.open then
      assert !Holds(b, HighAtLeastOpen);
      Failure(OhlcError(HighAtLeastOpen, b.high, b.open))
    else if b.high < b.close then
      assert !Holds(b, HighAtLeastClose);
      Failure(OhlcError(HighAtLeastClose, b.high, b.close))
    else if b.low > b.open then
      assert !Holds(b, LowAtMostOpen);
      Failure(OhlcError(LowAtMostOpen, b.low, b.open))
    else if b.low > b.close then
      assert !Holds(b, LowAtMostClose);
      Failure(OhlcError(LowAtMostClose, b.low, b.close))
    else Success(b)
  }

  /** `BarData(date=..., open=..., ...)`: the date must be present (checked
      per field, before the whole-bar check), then `validate_ohlc` decides. */
  function NewBar(date: Option<Timestamp>, open: real := 0.0, high: real := 0.0,
                  low: real := 0.0, close: real := 0.0, volume: int := 0)
    : (r: Result<BarData, BarError>)
    ensures date.None? ==> r == Failure(DateMissing)
    ensures date.Some? ==>
      var b := BarData(date.value, open, high, low, close, volume);
      && (r.Success? <==> forall rel :: Holds(b, rel))
      && (r.Success? ==> r.value == b)
      && (r.Failure? ==> r.error == Ohlc(ValidateOhlc(b).error))
  {
    if date.None? then Failure(DateMissing)
    else
      match ValidateOhlc(BarData(date.value, open, high, low, close, volume))
      case Success(b) => Success(b)
      case Failure(e) => Failure(Ohlc(e))
  }

  /** A bar is accepted exactly when its low is at most both open and close
      and its high at least both. */
  lemma AcceptedIffBracketed(b: BarData)
    ensures ValidateOhlc(b).Success? <==>
      b.low <= Min(b.open, b.close) && Max(b.open, b.close) <= b.high
  {
  }

  /** The first check is implied by the other four, so it never decides
      acceptance; it only decides which error is reported. */
  lemma HighLowCheckImplied(b: BarData)
    ensures ValidateOhlc(b).Success? <==> forall rel :: rel != HighAtLeastLow ==> Holds(b, rel)
  {
    if forall rel :: rel != HighAtLeastLow ==> Holds(b, rel) {
      assert Holds(b, HighAtLeastOpen) && Holds(b, LowAtMostOpen);
      forall rel ensures Holds(b, rel) {}
    }
  }

  /** A bar that breaks a single relation is rejected with that relation. */
  lemma SoleViolationReported(b: BarData, rel: Relation)
    requires !Holds(b, rel)
    requires forall other :: other != rel ==> Holds(b, other)
    ensures ValidateOhlc(b) == Failure(OhlcError(rel, Sides(b, rel).0, Sides(b, rel).1))
  {
  }

  /** A bar given only its date takes the all-zero defaults and is accepted. */
  lemma DefaultBarAccepted(date: Timestamp)
    ensures NewBar(Some(date)) == Success(BarData(date, 0.0, 0.0, 0.0, 0.0, 0))
  {
  }

  /** open 10, high 12, low 9, close 11 is accepted as given. */
  lemma SampleBarAccepted(date: Timestamp, volume: int)
    ensures NewBar(Some(date), 10.0, 12.0, 9.0, 11.0, volume)
            == Success(BarData(date, 10.0, 12.0, 9.0, 11.0, volume))
  {
  }
}
