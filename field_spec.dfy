/**
 * Field descriptors and the parser for type strings (`_parseType` and the
 * `_parse*Options` helpers): `<code>[':' <options>]` with code `i`, `f`, `t`
 * or `p`. The parser validates eagerly and reports an error, as the source
 * throws, for an unknown code, malformed options or an inverted range.
 */
module FieldSpecs {
  import opened Wrappers
  import opened PhpStrings

  /** `mt_getrandmax()`: 2^31 - 1. */
  const MT_RAND_MAX: int := 0x7fff_ffff

  /** The type codes the parser accepts. */
  const SUPPORTED_TYPES: set<string> := {"i", "f", "t", "p"}

  datatype TextUnit = Words | Sentences

  /** How many words or sentences a text field holds: a fixed `length`, or a range. */
  datatype Amount = Fixed(length: nat) | Range(min: nat, max: nat)

  /** The parsed descriptor of one field. Float options are kept unparsed. The image
      width and height stay the digit strings they were written as. */
  datatype FieldSpec =
    | IntSpec(min: int, max: int)
    | FloatSpec(options: Option<string>)
    | TextSpec(unit: TextUnit, amount: Amount)
    | ImageSpec(width: string, height: string)

  /** Why a type string was refused; each variant carries what the source's message names. */
  datatype ParseError =
    | UnsupportedType(code: string)
    | InvalidIntOptions(options: string)
    | InvalidTextUnit(unit: string)
    | InvalidTextOptions(options: string)
    | InvalidImageOptions(options: string)

  /** What every descriptor the parser returns satisfies, and all the generator relies on. */
  predicate WellFormed(spec: FieldSpec)
  {
    match spec
    case IntSpec(min, max) => 0 <= min <= max
    case FloatSpec(_) => true
    case TextSpec(_, amount) => amount.Range? ==> amount.min <= amount.max
    case ImageSpec(width, height) => CtypeDigit(width) && CtypeDigit(height)
  }

  /** The part of a type string before its first `:`. */
  function TypeCode(typeString: string): string
  {
    First(Explode(':', typeString))
  }

  /** The part between the first and the second `:`, or `null` when there is no `:`. */
  function TypeOptions(typeString: string): Option<string>
  {
    Second(Explode(':', typeString))
  }

  /** `_parseType`. */
  function ParseType(typeString: string): (r: Result<FieldSpec, ParseError>)
    ensures r.Success? ==> TypeCode(typeString) in SUPPORTED_TYPES && WellFormed(r.value)
    ensures TypeCode(typeString) !in SUPPORTED_TYPES ==> r == Failure(UnsupportedType(TypeCode(typeString)))
  {
    ParseOptions(TypeCode(typeString), TypeOptions(typeString))
  }

  /** The `switch` of `_parseType`: the options parser the code selects. */
  function ParseOptions(code: string, options: Option<string>): (r: Result<FieldSpec, ParseError>)
    ensures r.Success? ==> code in SUPPORTED_TYPES && WellFormed(r.value)
    ensures (r.Failure? && r.error.UnsupportedType?) <==> code !in SUPPORTED_TYPES
    ensures code !in SUPPORTED_TYPES ==> r == Failure(UnsupportedType(code))
  {
    if code == "i" then ParseIntOptions(options)
    else if code == "t" then ParseTextOptions(options)
    else if code == "p" then ParseImageOptions(options)
    else if code == "f" then Success(FloatSpec(options))
    else Failure(UnsupportedType(code))
  }

  /** `_parseIntOptions`: no options is the range [0, mt_getrandmax()], otherwise `min-max`. */
  function ParseIntOptions(options: Option<string>): (r: Result<FieldSpec, ParseError>)
    ensures options.None? ==> r == Success(IntSpec(0, MT_RAND_MAX))
    ensures r.Success? ==> r.value.IntSpec? && 0 <= r.value.min <= r.value.max
    ensures r.Failure? ==> r.error.InvalidIntOptions?
  {
    match options
    case None => Success(IntSpec(0, MT_RAND_MAX))
    case Some(opts) =>
      var pieces := Explode('-', opts);
      var min, max := First(pieces), Second(pieces);
      if !CtypeDigit(min) || !CtypeDigitOpt(max) || DigitsValue(min) > DigitsValue(max.value) then
        Failure(InvalidIntOptions(opts))
      else
        Success(IntSpec(DigitsValue(min), DigitsValue(max.value)))
  }

  /** `substr($options, -1)` and `substr($options, 0, -1)`; PHP reads `null` as "". */
  function OptionText(options: Option<string>): string
  {
    if options.None? then [] else options.value
  }

  function UnitOf(u: char): TextUnit
  {
    if u == 'w' then Words else Sentences
  }

  /** `_parseTextOptions`: a unit letter `w` or `s` after a fixed length or a `min-max` range. */
  function ParseTextOptions(options: Option<string>): (r: Result<FieldSpec, ParseError>)
    ensures r.Success? ==> var opts := OptionText(options);
      && |opts| > 0 && opts[|opts| - 1] in {'w', 's'}
      && r.value.TextSpec? && r.value.unit == UnitOf(opts[|opts| - 1])
      && (r.value.amount.Range? ==> r.value.amount.min <= r.value.amount.max)
    ensures (r.Failure? && r.error.InvalidTextUnit?) <==>
      var opts := OptionText(options); |opts| == 0 || opts[|opts| - 1] !in {'w', 's'}
    ensures r.Failure? ==> r.error.InvalidTextUnit? || r.error.InvalidTextOptions?
  {
    var opts := OptionText(options);
    if |opts| == 0 then Failure(InvalidTextUnit([]))
    else if opts[|opts| - 1] !in {'w', 's'} then Failure(InvalidTextUnit([opts[|opts| - 1]]))
    else
      var unit := UnitOf(opts[|opts| - 1]);
      var length := opts[..|opts| - 1];
      var pieces := Explode('-', length);
      var min, max := First(pieces), Second(pieces);
      if !CtypeDigit(min) || (max.Some? && !CtypeDigit(max.value))
        || (max.Some? && DigitsValue(min) > DigitsValue(max.value))
      then
        Failure(InvalidTextOptions(opts))
      else if max.None? then
        ExplodeOnePiece('-', length);
        Success(TextSpec(unit, Fixed(DigitsValue(length))))
      else
        Success(TextSpec(unit, Range(DigitsValue(min), DigitsValue(max.value))))
  }

  /** `_parseImageOptions`: `width*height`, both digit strings, kept as written. */
  function ParseImageOptions(options: Option<string>): (r: Result<FieldSpec, ParseError>)
    ensures r.Success? ==> r.value.ImageSpec? && options.Some?
    ensures r.Failure? ==> r.error.InvalidImageOptions?
  {
    var opts := OptionText(options);
    var pieces := Explode('*', opts);
    var width, height := First(pieces), Second(pieces);
    if !CtypeDigit(width) || !CtypeDigitOpt(height) then Failure(InvalidImageOptions(opts))
    else Success(ImageSpec(width, height.value))
  }

  /** A type string without `:` is a bare code, whose options are absent (`null`). */
  lemma {:induction false} BareTypeCode(code: string)
    requires ':' !in code
    ensures ParseType(code) == ParseOptions(code, None)
  {
    ExplodeNoSeparator(':', code);
  }

  /** In `code:opts`, possibly followed by a further `:` and anything, the options are
      exactly `opts`: what follows a second `:` is ignored. */
  lemma {:induction false} TypeCodeWithOptions(code: string, opts: string, rest: string)
    requires ':' !in code && ':' !in opts
    requires rest == [] || rest[0] == ':'
    ensures ParseType(code + ":" + opts + rest) == ParseOptions(code, Some(opts))
  {
    ExplodePair(':', code, opts, rest);
  }

  /** A digit string holds no separator. */
  lemma DigitsHoldNo(c: char, s: string)
    requires AllDigits(s) && !IsDigit(c)
    ensures c !in s
  {
  }

  /** Integer options `a-b` (with anything after a further `-`) give the range [a, b] when
      a <= b and are refused otherwise. */
  lemma {:induction false} IntOptionsRange(opts: string, a: string, b: string, rest: string)
    requires SplitsAt('-', opts, a, b, rest) && CtypeDigit(a) && CtypeDigit(b)
    ensures ParseIntOptions(Some(opts)) ==
      if DigitsValue(a) <= DigitsValue(b) then Success(IntSpec(DigitsValue(a), DigitsValue(b)))
      else Failure(InvalidIntOptions(opts))
  {
    DigitsHoldNo('-', a);
    DigitsHoldNo('-', b);
    ExplodePair('-', a, b, rest);
  }

  /** Conversely, accepted integer options are two digit strings around a `-`, followed by
      nothing or by a further `-`, and the range is their values. */
  lemma {:induction false} IntOptionsAccepted(opts: string)
    requires ParseIntOptions(Some(opts)).Success?
    ensures exists a, b, rest ::
      && SplitsAt('-', opts, a, b, rest)
      && CtypeDigit(a) && CtypeDigit(b)
      && ParseIntOptions(Some(opts)) == Success(IntSpec(DigitsValue(a), DigitsValue(b)))
  {
    var p := Explode('-', opts);
    ExplodeFirstTwo('-', opts);
    assert SplitsAt('-', opts, p[0], p[1], Remainder('-', p));
    assert CtypeDigit(p[0]) && CtypeDigit(p[1]);
  }

  /** Text options made of a digit string and a unit letter give that fixed length. */
  lemma {:induction false} TextOptionsFixed(opts: string, n: string, u: char)
    requires opts == n + [u] && CtypeDigit(n) && u in {'w', 's'}
    ensures ParseTextOptions(Some(opts)) == Success(TextSpec(UnitOf(u), Fixed(DigitsValue(n))))
  {
    assert opts[..|opts| - 1] == n;
    DigitsHoldNo('-', n);
    ExplodeNoSeparator('-', n);
  }

  /** Text options `a-b` (with anything after a further `-`) and a unit letter give the
      range [a, b] when a <= b and are refused otherwise. */
  lemma {:induction false} TextOptionsRange(opts: string, length: string, a: string, b: string, rest: string, u: char)
    requires opts == length + [u] && u in {'w', 's'}
    requires SplitsAt('-', length, a, b, rest) && CtypeDigit(a) && CtypeDigit(b)
    ensures ParseTextOptions(Some(opts)) ==
      if DigitsValue(a) <= DigitsValue(b) then Success(TextSpec(UnitOf(u), Range(DigitsValue(a), DigitsValue(b))))
      else Failure(InvalidTextOptions(opts))
  {
    assert opts[..|opts| - 1] == length;
    DigitsHoldNo('-', a);
    DigitsHoldNo('-', b);
    ExplodePair('-', a, b, rest);
  }

  /** Conversely, accepted text options end in a unit letter after either a digit string,
      giving a fixed length, or two digit strings around a `-`, giving a range. */
  lemma {:induction false} TextOptionsAccepted(opts: string)
    requires ParseTextOptions(Some(opts)).Success?
    ensures var spec := ParseTextOptions(Some(opts)).value;
      && |opts| > 0
      && var length := opts[..|opts| - 1];
      && (spec.amount.Fixed? ==> CtypeDigit(length) && spec.amount.length == DigitsValue(length))
      && (spec.amount.Range? ==> exists a, b, rest ::
            && SplitsAt('-', length, a, b, rest) && CtypeDigit(a) && CtypeDigit(b)
            && spec.amount == Range(DigitsValue(a), DigitsValue(b)))
  {
    var length := opts[..|opts| - 1];
    var p := Explode('-', length);
    if |p| == 1 {
      ExplodeOnePiece('-', length);
    } else {
      ExplodeFirstTwo('-', length);
      assert SplitsAt('-', length, p[0], p[1], Remainder('-', p));
      assert CtypeDigit(p[0]) && CtypeDigit(p[1]);
    }
  }

  /** Image options `w*h` (with anything after a further `*`) are accepted, the width and
      height kept verbatim, whenever both are digit strings; zero and leading zeros included. */
  lemma {:induction false} ImageOptionsSize(opts: string, w: string, h: string, rest: string)
    requires SplitsAt('*', opts, w, h, rest) && CtypeDigit(w) && CtypeDigit(h)
    ensures ParseImageOptions(Some(opts)) == Success(ImageSpec(w, h))
  {
    DigitsHoldNo('*', w);
    DigitsHoldNo('*', h);
    ExplodePair('*', w, h, rest);
  }

  /** Conversely, accepted image options are two digit strings around a `*`, followed by
      nothing or by a further `*`. */
  lemma {:induction false} ImageOptionsAccepted(options: Option<string>)
    requires ParseImageOptions(options).Success?
    ensures var spec := ParseImageOptions(options).value;
      && options.Some? && CtypeDigit(spec.width) && CtypeDigit(spec.height)
      && exists rest :: SplitsAt('*', options.value, spec.width, spec.height, rest)
  {
    var p := Explode('*', options.value);
    ExplodeFirstTwo('*', options.value);
    assert SplitsAt('*', options.value, p[0], p[1], Remainder('*', p));
  }

  /** `i:a-b` with digit strings `a` and `b`, possibly followed by a further `-` and more
      text: the range [a, b], or refused when a > b. */
  lemma {:induction false} IntTypeString(a: string, b: string, rest: string)
    requires CtypeDigit(a) && CtypeDigit(b)
    requires (rest == [] || rest[0] == '-') && ':' !in rest
    ensures ParseType("i:" + a + "-" + b + rest) ==
      if DigitsValue(a) <= DigitsValue(b) then Success(IntSpec(DigitsValue(a), DigitsValue(b)))
      else Failure(InvalidIntOptions(a + "-" + b + rest))
  {
    DigitsHoldNo(':', a);
    DigitsHoldNo(':', b);
    var opts := a + "-" + b + rest;
    assert "i:" + a + "-" + b + rest == "i" + [':'] + opts + "";
    ExplodePair(':', "i", opts, "");
    IntOptionsRange(opts, a, b, rest);
  }

  /** `t:nw` and `t:ns` with a digit string `n`: exactly `n` words or sentences. */
  lemma {:induction false} TextFixedTypeString(n: string, u: char)
    requires CtypeDigit(n) && u in {'w', 's'}
    ensures ParseType("t:" + n + [u]) == Success(TextSpec(UnitOf(u), Fixed(DigitsValue(n))))
  {
    DigitsHoldNo(':', n);
    assert "t:" + n + [u] == "t" + [':'] + (n + [u]) + "";
    ExplodePair(':', "t", n + [u], "");
    TextOptionsFixed(n + [u], n, u);
  }

  /** `t:a-bw` and `t:a-bs`: between a and b words or sentences, or refused when a > b. */
  lemma {:induction false} TextRangeTypeString(a: string, b: string, u: char)
    requires CtypeDigit(a) && CtypeDigit(b) && u in {'w', 's'}
    ensures ParseType("t:" + a + "-" + b + [u]) ==
      if DigitsValue(a) <= DigitsValue(b) then Success(TextSpec(UnitOf(u), Range(DigitsValue(a), DigitsValue(b))))
      else Failure(InvalidTextOptions(a + "-" + b + [u]))
  {
    DigitsHoldNo(':', a);
    DigitsHoldNo(':', b);
    var opts := a + "-" + b + [u];
    assert "t:" + a + "-" + b + [u] == "t" + [':'] + opts + "";
    ExplodePair(':', "t", opts, "");
    assert SplitsAt('-', a + "-" + b, a, b, "");
    TextOptionsRange(opts, a + "-" + b, a, b, "", u);
  }

  /** `p:w*h` with digit strings `w` and `h`: an image of that size, with both kept verbatim. */
  lemma {:induction false} ImageTypeString(w: string, h: string)
    requires CtypeDigit(w) && CtypeDigit(h)
    ensures ParseType("p:" + w + "*" + h) == Success(ImageSpec(w, h))
  {
    DigitsHoldNo(':', w);
    DigitsHoldNo(':', h);
    assert "p:" + w + "*" + h == "p" + [':'] + (w + "*" + h) + "";
    ExplodePair(':', "p", w + "*" + h, "");
    ImageOptionsSize(w + "*" + h, w, h, "");
  }

  /** The constructor's default title field: four to six words. */
  lemma DefaultTitleType()
    ensures ParseType("t:4-6w") == Success(TextSpec(Words, Range(4, 6)))
  {
    assert DigitsValue("4") == 4 && DigitsValue("6") == 6 by {
      assert "4"[..0] == [] && "6"[..0] == [];
    }
    TextRangeTypeString("4", "6", 'w');
    assert "t:" + "4" + "-" + "6" + ['w'] == "t:4-6w";
  }

  /** The constructor's default content field: five sentences. */
  lemma DefaultContentType()
    ensures ParseType("t:5s") == Success(TextSpec(Sentences, Fixed(5)))
  {
    assert DigitsValue("5") == 5 by {
      assert "5"[..0] == [];
    }
    TextFixedTypeString("5", 's');
    assert "t:" + "5" + ['s'] == "t:5s";
  }

  /** The constructor's default image field: 400 by 300. */
  lemma DefaultImageType()
    ensures ParseType("p:400*300") == Success(ImageSpec("400", "300"))
  {
    ImageTypeString("400", "300");
    assert "p:" + "400" + "*" + "300" == "p:400*300";
  }
}
