/** The fixed-point points currency: amounts are stored as whole numbers of
    minor units, and a definition's `scale` converts them to and from the
    major units users see (NANDA Points have scale 0, so both coincide). */
module Points {
  import opened Wrappers
  import opened Text

  /** `Number.MAX_SAFE_INTEGER`, 2^53 - 1. */
  const MaxSafeInteger: nat := 9007199254740991

  datatype PointsDefinition = PointsDefinition(
    code: string,
    name: string,
    symbol: string,
    scale: nat,
    minorUnitName: string,
    majorUnitName: string,
    maxAmount: nat,
    minAmount: nat)

  /** The NANDA Points (NP) definition: whole points, symbol "NP". */
  const NandaPoints: PointsDefinition :=
    PointsDefinition("NP", "NANDA Points", "NP", 0, "point", "point", MaxSafeInteger, 0)

  /** `Number.isInteger` on a finite number. */
  predicate IsInteger(x: real) {
    x == x.Floor as real
  }

  /** `Math.trunc`: rounds toward zero. */
  function Trunc(x: real): (t: int)
    ensures 0.0 <= x ==> 0 <= t && t as real <= x < t as real + 1.0
    ensures x < 0.0 ==> t <= 0 && t as real - 1.0 < x <= t as real
  {
    if x >= 0.0 then x.Floor else -((-x).Floor)
  }

  /** The two errors `createMinorUnits` throws: a TypeError for a non-integer
      and a RangeError for a negative value. */
  datatype PointsError = NotAnInteger(value: real) | Negative(value: real)

  /** `createMinorUnits`: admits exactly the non-negative whole numbers. */
  function CreateMinorUnits(value: real): (r: Result<nat, PointsError>)
    ensures r.Ok? <==> IsInteger(value) && value >= 0.0
    ensures r.Ok? ==> r.value as real == value
    ensures !IsInteger(value) ==> r == Err(NotAnInteger(value))
    ensures IsInteger(value) && value < 0.0 ==> r == Err(Negative(value))
  {
    if !IsInteger(value) then Err(NotAnInteger(value))
    else if value < 0.0 then Err(Negative(value))
    else Ok(value.Floor)
  }

  /** `Math.pow(10, scale)`: minor units per major unit. */
  function Factor(def: PointsDefinition): nat {
    Pow10(def.scale)
  }

  /** `toMinorUnits`: scale up, truncate toward zero, and admit the result as
      minor units (which fails only when it is negative). */
  function ToMinorUnits(def: PointsDefinition, major: real): (r: Result<nat, PointsError>)
    ensures r.Ok? <==> major * Factor(def) as real > -1.0
    ensures r.Ok? ==> r.value == Trunc(major * Factor(def) as real)
    ensures r.Err? ==> r.error.Negative?
  {
    CreateMinorUnits(Scaled(def, major) as real)
  }

  /** `Math.trunc(major * factor)`: the amount in whole minor units. */
  function Scaled(def: PointsDefinition, major: real): int {
    Trunc(major * Factor(def) as real)
  }

  /** `toMajorUnits`: divide by the factor. */
  function ToMajorUnits(def: PointsDefinition, minor: int): (x: real)
    ensures x * Factor(def) as real == minor as real
    ensures minor >= 0 ==> x >= 0.0
  {
    minor as real / Factor(def) as real
  }

  /** An amount that scales to a whole number of minor units converts exactly. */
  lemma ToMinorUnitsOfExact(def: PointsDefinition, major: real, minor: nat)
    requires major * Factor(def) as real == minor as real
    ensures ToMinorUnits(def, major) == Ok(minor)
  {
    assert Scaled(def, major) == Trunc(minor as real) == minor;
    assert CreateMinorUnits(minor as real) == Ok(minor);
  }

  /** Converting stored minor units to major units and back is the identity,
      at every scale. */
  lemma MinorMajorRoundTrip(def: PointsDefinition, minor: nat)
    ensures ToMinorUnits(def, ToMajorUnits(def, minor)) == Ok(minor)
  {
    ToMinorUnitsOfExact(def, ToMajorUnits(def, minor), minor);
  }

  /** At scale 0 `toMinorUnits` is the identity on non-negative whole numbers
      and fails with a RangeError on negative ones. */
  lemma NpToMinorUnitsOfWhole(n: int)
    ensures n >= 0 ==> ToMinorUnits(NandaPoints, n as real) == Ok(n)
    ensures n < 0 ==> ToMinorUnits(NandaPoints, n as real) == Err(Negative(n as real))
  {
    assert Factor(NandaPoints) == 1;
    assert Trunc(n as real) == n;
  }

  /** At scale 0, `toMajorUnits(toMinorUnits(n)) == n` for every natural n. */
  lemma NpMajorMinorRoundTrip(n: nat)
    ensures ToMinorUnits(NandaPoints, n as real).Ok?
    ensures ToMajorUnits(NandaPoints, ToMinorUnits(NandaPoints, n as real).value) == n as real
  {
    NpToMinorUnitsOfWhole(n);
  }

  /** At scale 0, `toMajorUnits` is the identity. */
  lemma NpToMajorUnits(minor: int)
    ensures ToMajorUnits(NandaPoints, minor) == minor as real
  {
    assert Factor(NandaPoints) == 1;
  }

  // ---------------------------------------------------------------------------
  // Display

  /** `toFixed(scale)` of `minor / 10^scale`: a whole part without leading
      zeros, a point, and exactly `scale` fractional digits, which together
      denote `minor / 10^scale`. */
  function FixedString(minor: nat, scale: nat): (s: string)
    requires scale > 0
    ensures |s| > scale + 1 && s[|s| - scale - 1] == '.'
    ensures AllDigits(s[..|s| - scale - 1]) && s[|s| - scale..] == LowDigits(minor, scale)
    ensures s[0] == '0' ==> |s| == scale + 2
    ensures DigitsValue(s[..|s| - scale - 1]) * Pow10(scale) + DigitsValue(s[|s| - scale..]) == minor
  {
    var whole := NatToString(DropDigits(minor, scale));
    var fraction := LowDigits(minor, scale);
    var t := whole + "." + fraction;
    assert t[..|whole|] == whole;
    assert t[|whole| + 1..] == fraction;
    DigitsValueOfNatToString(DropDigits(minor, scale));
    DropDigitsAndLowDigits(minor, scale);
    t
  }

  /** The whole part of the display is `minor / 10^scale` and the fraction
      digits are `minor % 10^scale`. */
  lemma FixedStringValue(minor: nat, scale: nat)
    requires scale > 0
    ensures var s := FixedString(minor, scale);
      DigitsValue(s[..|s| - scale - 1]) == minor / Pow10(scale)
      && DigitsValue(s[|s| - scale..]) == minor % Pow10(scale)
  {
    var s := FixedString(minor, scale);
    var q := DigitsValue(s[..|s| - scale - 1]);
    var r := DigitsValue(s[|s| - scale..]);
    DigitsValueBound(s[|s| - scale..]);
    DivModUnique(minor, Pow10(scale), q, r);
  }

  /** `format`: the amount in major units followed by a space and the
      symbol; at scale 0 the number part is the numeral of the amount, and
      `ParseFormatRoundTrip` reads it back. */
  function Format(def: PointsDefinition, minor: nat): (s: string)
    ensures |s| >= |def.symbol| + 2 && s[|s| - |def.symbol|..] == def.symbol && s[|s| - |def.symbol| - 1] == ' '
    ensures def.scale == 0 ==> s[..|s| - |def.symbol| - 1] == NatToString(minor)
    ensures def.scale > 0 ==> s[..|s| - |def.symbol| - 1] == FixedString(minor, def.scale)
  {
    var formatted := if def.scale == 0 then NatToString(minor) else FixedString(minor, def.scale);
    var s := formatted + " " + def.symbol;
    assert s[..|formatted|] == formatted;
    assert s[|formatted| + 1..] == def.symbol;
    s
  }

  /** For scale 0 the display is the decimal numeral, a space and the symbol:
      `format(25) == "25 NP"`. */
  lemma NpFormat(n: nat)
    ensures Format(NandaPoints, n) == NatToString(n) + " NP"
    ensures Format(NandaPoints, 25) == "25 NP"
  {
    assert NatToString(25) == NatToString(2) + [DigitChar(5)];
  }

  // ---------------------------------------------------------------------------
  // Validation and parsing

  datatype Validation = Valid | Invalid(error: string)

  const NotIntegerMessage := "Amount must be an integer in minor units"

  function BelowMinimumMessage(def: PointsDefinition): string {
    "Amount below minimum (" + Format(def, def.minAmount) + ")"
  }

  function AboveMaximumMessage(def: PointsDefinition): string {
    "Amount above maximum (" + Format(def, def.maxAmount) + ")"
  }

  /** `validate`: accepts exactly the whole amounts in [minAmount, maxAmount];
      a rejection names the first failed test, in the order integer, minimum,
      maximum. */
  function Validate(def: PointsDefinition, amount: real): (v: Validation)
    ensures v == Valid <==>
      IsInteger(amount) && def.minAmount as real <= amount <= def.maxAmount as real
    ensures !IsInteger(amount) ==> v == Invalid(NotIntegerMessage)
    ensures IsInteger(amount) && amount < def.minAmount as real ==>
      v == Invalid(BelowMinimumMessage(def))
    ensures IsInteger(amount) && def.minAmount as real <= amount && amount > def.maxAmount as real ==>
      v == Invalid(AboveMaximumMessage(def))
  {
    if !IsInteger(amount) then Invalid(NotIntegerMessage)
    else if amount < def.minAmount as real then Invalid(BelowMinimumMessage(def))
    else if amount > def.maxAmount as real then Invalid(AboveMaximumMessage(def))
    else Valid
  }

  /** What `parse` can do: return an amount, return a failure message, or let
      the error thrown by `toMinorUnits` escape. */
  datatype ParseResult = Parsed(amount: nat) | ParseFailed(error: string) | ParseThrew(thrown: PointsError)

  /** The text `parse` hands to `parseFloat`: trimmed, the first occurrence of
      the symbol removed, trimmed again. */
  function CleanInput(def: PointsDefinition, input: string): (c: string)
    ensures |c| <= |input|
    ensures c == [] || (!IsWhitespace(c[0]) && !IsWhitespace(c[|c| - 1]))
  {
    Trim(RemoveFirst(Trim(input), def.symbol))
  }

  function InvalidAmountMessage(def: PointsDefinition, input: string): string {
    "Invalid " + def.name + " amount: \"" + input + "\""
  }

  /** The part of `parse` after `parseFloat` succeeded with `x`. */
  function ParseAmount(def: PointsDefinition, x: real): (r: ParseResult)
    ensures r.Parsed? ==> Validate(def, r.amount as real) == Valid
    ensures r.ParseThrew? <==> ToMinorUnits(def, x).Err?
    ensures r.ParseThrew? ==> r.thrown == ToMinorUnits(def, x).error
    ensures r.Parsed? <==> ToMinorUnits(def, x).Ok? && Validate(def, ToMinorUnits(def, x).value as real) == Valid
    ensures r.Parsed? ==> r.amount == ToMinorUnits(def, x).value
    ensures r.ParseFailed? ==>
      ToMinorUnits(def, x).Ok? && Validate(def, ToMinorUnits(def, x).value as real) == Invalid(r.error)
  {
    match ToMinorUnits(def, x)
    case Err(e) => ParseThrew(e)
    case Ok(minor) =>
      match Validate(def, minor as real)
      case Invalid(message) => ParseFailed(message)
      case Valid => Parsed(minor)
  }

  /** `parse`, as written: a successful result always passes `validate`;
      unreadable text is a failure naming the input. */
  function Parse(def: PointsDefinition, input: string): (r: ParseResult)
    ensures r.Parsed? ==> Validate(def, r.amount as real) == Valid
    ensures r.Parsed? ==> def.minAmount <= r.amount <= def.maxAmount
    ensures ParseFloat(CleanInput(def, input)).None? ==> r == ParseFailed(InvalidAmountMessage(def, input))
    ensures r.ParseThrew? ==> r.thrown.Negative?
  {
    match ParseFloat(CleanInput(def, input))
    case None => ParseFailed(InvalidAmountMessage(def, input))
    case Some(x) => ParseAmount(def, x)
  }

  // ---------------------------------------------------------------------------
  // parse undoes format

  /** A symbol `parse` can strip again from `format`'s output: it is not empty,
      does not start with a digit, a point or white space, and does not end
      with white space. */
  predicate SeparableSymbol(symbol: string) {
    |symbol| > 0 && !IsDigit(symbol[0]) && symbol[0] != '.' && symbol[0] != ' '
    && !IsWhitespace(symbol[0]) && !IsWhitespace(symbol[|symbol| - 1])
  }

  lemma TrimOfDigitToNonSpace(s: string)
    requires |s| > 0 && IsDigit(s[0]) && !IsWhitespace(s[|s| - 1])
    ensures Trim(s) == s
  {
    TrimStartOfDigit(s);
  }

  lemma TrimOfNumeralSpace(d: string)
    requires |d| > 0 && AllDigits(d)
    ensures Trim(d + " ") == d
  {
    TrimStartOfDigit(d + " ");
    assert (d + " ")[..|d|] == d;
    assert TrimEnd(d + " ") == TrimEnd(d);
    assert !IsWhitespace(d[|d| - 1]);
  }

  lemma RemoveSymbolAfterNumeral(d: string, symbol: string)
    requires AllDigits(d) && SeparableSymbol(symbol)
    ensures RemoveFirst(d + " " + symbol, symbol) == d + " "
  {
    var s := d + " " + symbol;
    var i := |d| + 1;
    assert s[i..i + |symbol|] == symbol;
    forall j | 0 <= j < i
      ensures !OccursAt(s, symbol, j)
    {
      assert IsDigit(s[j]) || s[j] == ' ';
    }
    IndexOfFirst(s, symbol, i);
    assert s[..i] == d + " ";
    assert s[i + |symbol|..] == [];
  }

  lemma CleanNumeralWithSymbol(d: string, symbol: string)
    requires |d| > 0 && AllDigits(d) && SeparableSymbol(symbol)
    ensures Trim(RemoveFirst(Trim(d + " " + symbol), symbol)) == d
  {
    var s := d + " " + symbol;
    assert s[0] == d[0] && s[|s| - 1] == symbol[|symbol| - 1];
    TrimOfDigitToNonSpace(s);
    RemoveSymbolAfterNumeral(d, symbol);
    TrimOfNumeralSpace(d);
  }

  lemma CleanInputOfFormat(def: PointsDefinition, n: nat)
    requires def.scale == 0 && SeparableSymbol(def.symbol)
    ensures CleanInput(def, Format(def, n)) == NatToString(n)
  {
    var d := NatToString(n);
    assert Format(def, n) == d + " " + def.symbol;
    CleanNumeralWithSymbol(d, def.symbol);
  }

  /** At scale 0, `parse` reads `format`'s output back: every amount within
      the definition's limits survives display and re-entry unchanged. */
  lemma ParseFormatRoundTrip(def: PointsDefinition, n: nat)
    requires def.scale == 0 && SeparableSymbol(def.symbol)
    requires def.minAmount <= n <= def.maxAmount
    ensures Parse(def, Format(def, n)) == Parsed(n)
  {
    var input := Format(def, n);
    CleanInputOfFormat(def, n);
    ParseFloatOfNatToString(n);
    ParseOfReadable(def, input, n as real);
    WholeAtScaleZero(def, n);
    assert Validate(def, n as real) == Valid;
  }

  /** Once `parseFloat` has read a number, `parse` is decided by that number. */
  lemma ParseOfReadable(def: PointsDefinition, input: string, x: real)
    requires ParseFloat(CleanInput(def, input)) == Some(x)
    ensures Parse(def, input) == ParseAmount(def, x)
  {
  }

  /** At scale 0 a whole number is its own count of minor units. */
  lemma WholeAtScaleZero(def: PointsDefinition, n: nat)
    requires def.scale == 0
    ensures ToMinorUnits(def, n as real) == Ok(n)
  {
    assert Factor(def) == 1;
    ToMinorUnitsOfExact(def, n as real, n);
  }

  /** The NP instance: `parse(format(n))` gives `n` for every n up to
      `Number.MAX_SAFE_INTEGER`. */
  lemma NpParseFormatRoundTrip(n: nat)
    requires n <= MaxSafeInteger
    ensures Parse(NandaPoints, Format(NandaPoints, n)) == Parsed(n)
  {
    ParseFormatRoundTrip(NandaPoints, n);
  }

  // ---------------------------------------------------------------------------
  // parse on negative input

  lemma TrimOfNonSpaceEnds(s: string)
    requires |s| > 0 && !IsWhitespace(s[0]) && !IsWhitespace(s[|s| - 1])
    ensures Trim(s) == s
  {
    assert TrimStart(s) == s;
  }

  /** A negative numeral passes through `parse`'s clean-up untouched. */
  lemma CleanNegativeNumeral(n: nat)
    ensures CleanInput(NandaPoints, "-" + NatToString(n)) == "-" + NatToString(n)
  {
    var d := NatToString(n);
    var s := "-" + d;
    assert s[|s| - 1] == d[|d| - 1];
    TrimOfNonSpaceEnds(s);
    forall i | 0 <= i < |s|
      ensures s[i] != 'N'
    {
      if i > 0 { assert s[i] == d[i - 1]; }
    }
    assert IndexOf(s, "NP") == None;
  }

  /** `parseFloat("-" + String(n))` is `-n`. */
  lemma ParseFloatOfNegativeNumeral(n: nat)
    ensures ParseFloat("-" + NatToString(n)) == Some(-(n as real))
  {
    var d := NatToString(n);
    var s := "-" + d;
    assert TrimStart(s) == s;
    assert s[1..] == d + [];
    ParseUnsignedOfNumeral(d, []);
    DigitsValueOfNatToString(n);
  }

  /** `parse` does not return a failure for a negative amount such as "-5":
      `toMinorUnits` throws a RangeError out of `parse`, so the below-minimum
      branch of `validate` is never reached. */
  lemma ParseNegativeThrows(n: nat)
    requires n > 0
    ensures Parse(NandaPoints, "-" + NatToString(n)) == ParseThrew(Negative(-(n as real)))
  {
    var input := "-" + NatToString(n);
    CleanNegativeNumeral(n);
    ParseFloatOfNegativeNumeral(n);
    NegativeAmountThrows(n);
    ParseThrowsOnReading(input, -(n as real), Negative(-(n as real)));
  }

  /** When the number `parseFloat` reads makes the conversion throw, `parse`
      lets that error out. */
  lemma ParseThrowsOnReading(input: string, x: real, e: PointsError)
    requires ParseFloat(CleanInput(NandaPoints, input)) == Some(x)
    requires ParseAmount(NandaPoints, x) == ParseThrew(e)
    ensures Parse(NandaPoints, input) == ParseThrew(e)
  {
    ParseOfReadable(NandaPoints, input, x);
  }

  /** Once read, a negative number makes `toMinorUnits` throw. */
  lemma NegativeAmountThrows(n: nat)
    requires n > 0
    ensures ParseAmount(NandaPoints, -(n as real)) == ParseThrew(Negative(-(n as real)))
  {
    var x := -(n as real);
    var scaled := Scaled(NandaPoints, x);
    assert Factor(NandaPoints) == 1;
    assert x * Factor(NandaPoints) as real == x;
    assert scaled == -(n as int);
    assert CreateMinorUnits(scaled as real) == Err(Negative(x));
  }

  /** The part of the corrected parse after `parseFloat` succeeded with `x`. */
  function ParseAmountChecked(def: PointsDefinition, x: real): (r: ParseResult)
    ensures !r.ParseThrew?
    ensures r.Parsed? ==> Validate(def, r.amount as real) == Valid
    ensures !ParseAmount(def, x).ParseThrew? ==> r == ParseAmount(def, x)
  {
    var scaled := Scaled(def, x);
    match Validate(def, scaled as real)
    case Invalid(message) => ParseFailed(message)
    case Valid =>
      var minor: nat := scaled;
      assert CreateMinorUnits(minor as real) == Ok(minor);
      Parsed(minor)
  }

  /** `parse` with its failures returned rather than thrown: the scaled,
      truncated amount is validated before it is admitted as minor units.
      Wherever the original does not throw, both agree. */
  function ParseChecked(def: PointsDefinition, input: string): (r: ParseResult)
    ensures !r.ParseThrew?
    ensures r.Parsed? ==> Validate(def, r.amount as real) == Valid
    ensures !Parse(def, input).ParseThrew? ==> r == Parse(def, input)
  {
    match ParseFloat(CleanInput(def, input))
    case None => ParseFailed(InvalidAmountMessage(def, input))
    case Some(x) => ParseAmountChecked(def, x)
  }

  /** The corrected parse reports a negative amount as below the minimum. */
  lemma ParseCheckedNegative(n: nat)
    requires n > 0
    ensures ParseChecked(NandaPoints, "-" + NatToString(n)) == ParseFailed(BelowMinimumMessage(NandaPoints))
  {
    CleanNegativeNumeral(n);
    ParseFloatOfNegativeNumeral(n);
    assert Factor(NandaPoints) == 1;
    assert Trunc(-(n as real)) == -(n as int);
  }

  // ---------------------------------------------------------------------------
  // The registry of supported points

  const SupportedPoints: map<string, PointsDefinition> := map["NP" := NandaPoints]

  /** The property names every JavaScript object inherits from
      `Object.prototype`; the `in` operator reports them present too. */
  const ObjectPrototypeKeys: set<string> := {
    "constructor", "hasOwnProperty", "isPrototypeOf", "propertyIsEnumerable",
    "toLocaleString", "toString", "valueOf", "__proto__",
    "__defineGetter__", "__defineSetter__", "__lookupGetter__", "__lookupSetter__"
  }

  /** `isSupportedPoints` as written: `code in SUPPORTED_POINTS` sees inherited
      keys as well as the registry's own. */
  function IsSupportedPointsAsWritten(code: string): (b: bool)
    ensures IsSupportedPoints(code) ==> b
    ensures b && !IsSupportedPoints(code) ==> code in ObjectPrototypeKeys
  {
    code in SupportedPoints || code in ObjectPrototypeKeys
  }

  /** The guard admits "toString", which names no points definition. */
  lemma PrototypeKeyPassesGuard()
    ensures IsSupportedPointsAsWritten("toString") && "toString" !in SupportedPoints
  {
  }

  /** `isSupportedPoints` restricted to the registry's own keys. */
  function IsSupportedPoints(code: string): (b: bool)
    ensures b <==> code == "NP"
  {
    code in SupportedPoints
  }

  /** `getPoints`: the definition registered under a supported code. */
  function GetPoints(code: string): (def: PointsDefinition)
    requires IsSupportedPoints(code)
    ensures def == NandaPoints && def.scale == 0 && def.minAmount == 0 && def.maxAmount == MaxSafeInteger
  {
    SupportedPoints[code]
  }
}
