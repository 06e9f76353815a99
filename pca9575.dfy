/** Configuration validation for the PCA9575 16-bit I2C GPIO expander
    (esphome/components/pca9575/__init__.py): the expander schema, the pin
    schema with its mode validator, and the second-pass check that ties a
    pin's number to its parent expander's pin count. */
module Pca9575 {
  import Decimal

  datatype Option<+T> = None | Some(value: T)

  /** Why a configuration was rejected. `Invalid` carries the message this
      component raises itself; the other kinds stand for rejections by the
      generic validators the schemas are built from. */
  datatype Error =
    | Invalid(message: string)
    | NotInRange(value: int, min: int, max: int)
    | NotOneOf(value: int, allowed: set<int>)
    | UnknownModes(names: set<string>)

  datatype Result<+T> = Ok(value: T) | Err(error: Error)

  /** The outcome of a check that returns nothing or raises. */
  datatype Outcome = Pass | Fail(error: Error)

  const CONF_INPUT: string := "input"
  const CONF_OUTPUT: string := "output"
  /** The modes the pin schema offers. */
  const PIN_MODES: set<string> := {CONF_INPUT, CONF_OUTPUT}
  /** Bounds of the pin schema's `int_range`. */
  const MIN_PIN_NUMBER: int := 0
  const MAX_PIN_NUMBER: int := 15
  /** `pin_count` is optional with this written default ... */
  const DEFAULT_PIN_COUNT: int := 8
  /** ... but `one_of(16)` accepts only this value when it is given. */
  const ALLOWED_PIN_COUNTS: set<int> := {16}
  /** Default I2C address of the non-A part. */
  const DEFAULT_ADDRESS: int := 0x20
  const MODE_MESSAGE: string := "Mode must be either input or output"
  const RANGE_MESSAGE_PREFIX: string := "Pin number must be in range 0-"

  /** A pin's direction after the mode schema has filled in its defaults. */
  datatype Mode = Mode(input: bool, output: bool)

  /** A pin entry as written: `mode` holds the mode names the user set. */
  datatype RawPin = RawPin(id: string, parent: string, number: int, inverted: bool, mode: map<string, bool>)

  /** A pin entry that passed the pin schema. */
  datatype PinConfig = PinConfig(id: string, parent: string, number: int, inverted: bool, mode: Mode)

  /** An expander entry as written: `pin_count` and `address` may be absent. */
  datatype RawExpander = RawExpander(id: string, pinCount: Option<int>, address: Option<int>)

  /** An expander entry that passed the expander schema. */
  datatype ExpanderConfig = ExpanderConfig(id: string, pinCount: int, address: int)

  function Min(a: int, b: int): int { if a <= b then a else b }

  // ---------------------------------------------------------------- modes

  /** `validate_mode`: exactly one of input and output must be set; the
      value is then passed through unchanged. */
  function ValidateMode(m: Mode): (r: Result<Mode>)
    ensures r.Ok? <==> (m.input != m.output)
    ensures !m.input && !m.output ==> r == Err(Invalid(MODE_MESSAGE))
    ensures m.input && m.output ==> r == Err(Invalid(MODE_MESSAGE))
    ensures r.Ok? ==> r.value == m
  {
    if !(m.input || m.output) then Err(Invalid(MODE_MESSAGE))
    else if m.input && m.output then Err(Invalid(MODE_MESSAGE))
    else Ok(m)
  }

  /** The value of one mode flag: absent means not set. */
  function ModeFlag(raw: map<string, bool>, name: string): bool {
    name in raw && raw[name]
  }

  /** The pin schema's mode part: only the modes input and output exist,
      an absent one is false, and `validate_mode` then decides. */
  function ModeSchema(raw: map<string, bool>): (r: Result<Mode>)
    ensures r.Ok? <==> raw.Keys <= PIN_MODES && ModeFlag(raw, CONF_INPUT) != ModeFlag(raw, CONF_OUTPUT)
    ensures !(raw.Keys <= PIN_MODES) ==> r == Err(UnknownModes(raw.Keys - PIN_MODES))
    ensures r.Ok? ==> r.value == Mode(ModeFlag(raw, CONF_INPUT), ModeFlag(raw, CONF_OUTPUT))
  {
    if !(raw.Keys <= PIN_MODES) then Err(UnknownModes(raw.Keys - PIN_MODES))
    else ValidateMode(Mode(ModeFlag(raw, CONF_INPUT), ModeFlag(raw, CONF_OUTPUT)))
  }

  // ---------------------------------------------------------- pin numbers

  /** The pin schema's `int_range(min=0, max=15)` on the pin number. */
  function PinNumberSchema(n: int): (r: Result<int>)
    ensures r.Ok? <==> 0 <= n <= 15
    ensures r.Ok? ==> r.value == n
    ensures r.Err? ==> r.error == NotInRange(n, 0, 15)
  {
    if MIN_PIN_NUMBER <= n <= MAX_PIN_NUMBER then Ok(n)
    else Err(NotInRange(n, MIN_PIN_NUMBER, MAX_PIN_NUMBER))
  }

  /** The whole pin schema: number, then mode; id, parent reference and
      inversion flag are carried over as written. */
  function PinSchema(raw: RawPin): (r: Result<PinConfig>)
    ensures r.Ok? <==> 0 <= raw.number <= 15 && ModeSchema(raw.mode).Ok?
    ensures r.Ok? ==> r.value.id == raw.id && r.value.parent == raw.parent &&
                      r.value.number == raw.number && r.value.inverted == raw.inverted &&
                      r.value.mode == Mode(ModeFlag(raw.mode, CONF_INPUT), ModeFlag(raw.mode, CONF_OUTPUT))
    ensures r.Ok? ==> r.value.mode.input != r.value.mode.output
  {
    match PinNumberSchema(raw.number)
    case Err(e) => Err(e)
    case Ok(n) =>
      match ModeSchema(raw.mode)
      case Err(e) => Err(e)
      case Ok(m) => Ok(PinConfig(raw.id, raw.parent, n, raw.inverted, m))
  }

  /** The error message of the final check, `f"... 0-{count - 1}"`. */
  function RangeMessage(count: int): string {
    RANGE_MESSAGE_PREFIX + Decimal.IntToString(count - 1)
  }

  /** `pca9575_pin_final_validate`: the pin number must be strictly below
      the parent expander's configured pin count. */
  function PinFinalValidate(pin: PinConfig, parent: ExpanderConfig): (r: Outcome)
    ensures r.Pass? <==> pin.number < parent.pinCount
    ensures r.Fail? ==> r.error == Invalid(RangeMessage(parent.pinCount))
  {
    var count := parent.pinCount;
    if pin.number >= count then Fail(Invalid(RangeMessage(count))) else Pass
  }

  /** A pin entry as the pin registry sees it: the pin schema first, then,
      once the `pca9575` reference has been resolved to `parent`, the final
      check against that parent. */
  function ValidatePin(raw: RawPin, parent: ExpanderConfig): (r: Result<PinConfig>)
    requires raw.parent == parent.id
    ensures r.Ok? <==> PinSchema(raw).Ok? && raw.number < parent.pinCount
    ensures r.Ok? ==> r.value == PinSchema(raw).value && r.value.parent == parent.id
  {
    match PinSchema(raw)
    case Err(e) => Err(e)
    case Ok(pin) =>
      match PinFinalValidate(pin, parent)
      case Fail(e) => Err(e)
      case Pass => Ok(pin)
  }

  // ------------------------------------------------------------ expanders

  /** `pin_count`: absent gives the written default; a given value must be
      one of the allowed counts. */
  function PinCountSchema(given: Option<int>): (r: Result<int>)
    ensures given.None? ==> r == Ok(DEFAULT_PIN_COUNT)
    ensures given.Some? ==> (r.Ok? <==> given.value == 16)
    ensures given.Some? && r.Ok? ==> r.value == given.value
    ensures given.Some? && r.Err? ==> r.error == NotOneOf(given.value, {16})
  {
    match given
    case None => Ok(DEFAULT_PIN_COUNT)
    case Some(n) => if n in ALLOWED_PIN_COUNTS then Ok(n) else Err(NotOneOf(n, ALLOWED_PIN_COUNTS))
  }

  /** The expander schema: id as declared, `pin_count` as above, and the
      I2C device address defaulting to 0x20. */
  function ExpanderSchema(raw: RawExpander): (r: Result<ExpanderConfig>)
    ensures r.Ok? <==> PinCountSchema(raw.pinCount).Ok?
    ensures r.Ok? ==> r.value.id == raw.id
    ensures r.Ok? ==> r.value.pinCount == (if raw.pinCount.Some? then 16 else 8)
    ensures r.Ok? ==> r.value.address == (if raw.address.Some? then raw.address.value else 0x20)
  {
    match PinCountSchema(raw.pinCount)
    case Err(e) => Err(e)
    case Ok(count) =>
      var address := match raw.address case Some(a) => a case None => DEFAULT_ADDRESS;
      Ok(ExpanderConfig(raw.id, count, address))
  }

  // ----------------------------------------------------------- properties

  /** The range error names the highest valid number: the text after the
      fixed prefix reads back as `count - 1`, so distinct counts give
      distinct messages. */
  lemma RangeMessageNamesLastPin(count: int)
    ensures var m := RangeMessage(count); var p := |RANGE_MESSAGE_PREFIX|;
      |m| > p && m[..p] == RANGE_MESSAGE_PREFIX &&
      (m[p] == '-' ==> Decimal.AllDigits(m[p + 1..])) &&
      (m[p] != '-' ==> Decimal.AllDigits(m[p..])) &&
      Decimal.ParseInt(m[p..]) == count - 1
  {
    var m := RangeMessage(count);
    var p := |RANGE_MESSAGE_PREFIX|;
    assert m[p..] == Decimal.IntToString(count - 1);
    Decimal.ParseIntToString(count - 1);
  }

  /** Different pin counts give different range messages. */
  lemma RangeMessageInjective(a: int, b: int)
    ensures RangeMessage(a) == RangeMessage(b) ==> a == b
  {
    if RangeMessage(a) == RangeMessage(b) {
      var p := |RANGE_MESSAGE_PREFIX|;
      assert RangeMessage(a)[p..] == Decimal.IntToString(a - 1);
      assert RangeMessage(b)[p..] == Decimal.IntToString(b - 1);
      Decimal.IntToStringInjective(a - 1, b - 1);
    }
  }

  /** A pin whose mode passes is accepted by both checks exactly when its
      number lies in 0..min(15, count - 1). */
  lemma AcceptedPinNumbers(raw: RawPin, parent: ExpanderConfig)
    requires raw.parent == parent.id
    requires ModeSchema(raw.mode).Ok?
    ensures ValidatePin(raw, parent).Ok? <==> 0 <= raw.number <= Min(MAX_PIN_NUMBER, parent.pinCount - 1)
  {
  }

  /** The numbers 0..k-1. */
  function Below(k: nat): (r: set<int>)
    ensures forall n :: n in r <==> 0 <= n < k
  {
    if k == 0 then {} else Below(k - 1) + {k - 1}
  }

  lemma {:induction false} BelowCardinality(k: nat)
    ensures |Below(k)| == k
  {
    if k > 0 {
      BelowCardinality(k - 1);
      assert k - 1 !in Below(k - 1);
    }
  }

  /** The pin numbers usable on an expander with `count` pins: exactly
      those that pass both the pin schema's range and the final check. */
  function UsablePins(count: int): (r: set<int>)
    ensures forall n :: n in r <==> PinNumberSchema(n).Ok? && n < count
  {
    Below(if count <= 0 then 0 else Min(MAX_PIN_NUMBER + 1, count))
  }

  /** An expander with `count` pins offers min(16, count) usable pin
      numbers, none when `count` is not positive; with the only accepted
      count, 16, these are exactly 0..15, and with the written default 8
      exactly 0..7. */
  lemma UsablePinCount(count: int)
    ensures |UsablePins(count)| == if count <= 0 then 0 else Min(16, count)
    ensures UsablePins(16) == Below(16) && UsablePins(8) == Below(8)
  {
    BelowCardinality(if count <= 0 then 0 else Min(16, count));
  }

  /** For the only accepted pin count, the boundary: 15 passes, 16 fails. */
  lemma BoundaryForSixteenPins(parent: ExpanderConfig, pin: PinConfig)
    requires parent.pinCount == 16
    ensures pin.number == 15 ==> PinFinalValidate(pin, parent) == Pass
    ensures pin.number == 16 ==> PinFinalValidate(pin, parent) == Fail(Invalid("Pin number must be in range 0-15"))
  {
  }
}
