/** Parsing and printing of the 18-place fixed-point decimal that is stored in a 128-bit integer. */
module RocDec {
  import opened Options
  import opened Decimals
  import opened Words

  const DECIMAL_PLACES: nat := 18
  const ONE_POINT_ZERO: nat := 1_000_000_000_000_000_000
  const MAX_STR_LENGTH: nat := 41
  const I128_MAX: int := 170141183460469231731687303715884105727
  const I128_MIN: int := -170141183460469231731687303715884105728

  predicate Fits(x: int) { I128_MIN <= x <= I128_MAX }

  function Checked(x: int): Option<int> { if Fits(x) then Some(x) else None }

  // ----- The parser as the code computes it -----

  /** The position of the first dot, or the length. */
  function FirstDot(s: string): (k: nat)
    ensures k <= |s| && (k < |s| ==> s[k] == '.') && forall i :: 0 <= i < k ==> s[i] != '.'
  {
    if |s| == 0 || s[0] == '.' then 0 else 1 + FirstDot(s[1..])
  }

  function Utf8Length(s: string): (n: nat)
    ensures n >= |s|
  {
    if |s| == 0 then 0
    else
      var c := s[0] as int;
      (if c < 0x80 then 1 else if c < 0x800 then 2 else if c < 0x1_0000 then 3 else 4) + Utf8Length(s[1..])
  }

  predicate IsSign(c: char) { c == '+' || c == '-' }

  function Unsigned(s: string): string {
    if |s| > 0 && IsSign(s[0]) then s[1..] else s
  }

  predicate Negative(s: string) { |s| > 0 && s[0] == '-' }

  /** `parse::<i128>` on at most 18 bytes: an optional sign and at least one digit. */
  function ParseInt(s: string): Option<int> {
    var digits := Unsigned(s);
    if |digits| == 0 || !AllDigits(digits) then None
    else Some(if Negative(s) then -(Value(digits) as int) else Value(digits))
  }

  /** n times 10^zeros, one zero at a time. */
  function Shifted(n: int, zeros: nat): int
    decreases zeros
  {
    if zeros == 0 then n else Shifted(10 * n, zeros - 1)
  }

  lemma {:induction false} ShiftedIsProduct(n: int, zeros: nat)
    ensures Shifted(n, zeros) == n * Pow10(zeros)
    decreases zeros
  {
    if zeros > 0 {
      ShiftedIsProduct(10 * n, zeros - 1);
      assert 10 * n * Pow10(zeros - 1) == n * Pow10(zeros);
    }
  }

  /** Restore the zeros left out after the given number of places. */
  function Scaled(n: int, places: nat): int
    requires places <= DECIMAL_PLACES
  {
    Shifted(n, DECIMAL_PLACES - places)
  }

  function WithSignOf(before: string, lo: int): int {
    if Negative(before) then -lo else lo
  }

  /** The fractional part, scaled up to 18 places.  Longer text is not looked at. */
  function ParseFraction(before: string, after: string): Option<int> {
    if Utf8Length(after) > DECIMAL_PLACES then Some(0)
    else
      match ParseInt(after)
      case None => None
      case Some(answer) =>
        Some(WithSignOf(before, Scaled(answer, |after|)))
  }

  /** The digits before the point, accumulated with checked arithmetic. */
  function Accumulate(digits: string, positive: bool, hi: int): Option<int> {
    if |digits| == 0 then Some(hi)
    else if digits[0] == '_' then Accumulate(digits[1..], positive, hi)
    else if !IsDigit(digits[0]) then None
    else
      var d := DigitValue(digits[0]);
      match Checked(hi * 10)
      case None => None
      case Some(ten) =>
        match Checked(if positive then ten + d else ten - d)
        case None => None
        case Some(next) => Accumulate(digits[1..], positive, next)
  }

  function Combine(hi: int, lo: int): Option<int> {
    match Checked(hi * ONE_POINT_ZERO)
    case None => None
    case Some(scaled) => Checked(scaled + lo)
  }

  /** Put the accumulated integer part and the fraction together. */
  function Assemble(before: string, fraction: Option<int>): Option<int> {
    match fraction
    case None => None
    case Some(lo) =>
      match Accumulate(Unsigned(before), !Negative(before), 0)
      case None => None
      case Some(hi) => Combine(hi, lo)
  }

  function FromStr(value: string): Option<int> {
    var dot := FirstDot(value);
    if dot == |value| then Assemble(value, Some(0))
    else
      var before, after := value[..dot], value[dot + 1..];
      if FirstDot(after) < |after| then None else Assemble(before, ParseFraction(before, after))
  }

  /** `from_str`. */
  method Parse(value: string) returns (r: Option<int>)
    ensures r == FromStr(value)
  {
    var dot := FirstDot(value);
    var before := value[..dot];
    assert dot == |value| ==> before == value;
    var lo: int := 0;
    if dot < |value| {
      var after := value[dot + 1..];
      if FirstDot(after) < |after| { return None; }
      match ParseFraction(before, after) {
        case None => return None;
        case Some(fraction) => lo := fraction;
      }
    }
    var hi := AccumulateDigits(Unsigned(before), !Negative(before));
    if hi == None { return None; }
    r := Combine(hi.value, lo);
  }

  /** The accumulating loop of `from_str`. */
  method AccumulateDigits(digits: string, positive: bool) returns (r: Option<int>)
    ensures r == Accumulate(digits, positive, 0)
  {
    var hi: int := 0;
    for k := 0 to |digits|
      invariant Accumulate(digits[k..], positive, hi) == Accumulate(digits, positive, 0)
    {
      assert digits[k..][1..] == digits[k + 1..];
      if digits[k] == '_' { continue; }
      if !IsDigit(digits[k]) { return None; }
      var d := DigitValue(digits[k]);
      if !Fits(hi * 10) { return None; }
      hi := hi * 10;
      if positive {
        if !Fits(hi + d) { return None; }
        hi := hi + d;
      } else {
        if !Fits(hi - d) { return None; }
        hi := hi - d;
      }
    }
    r := Some(hi);
  }

  // ----- What a numeral means -----

  datatype Sign = Unmarked | Plus | Minus

  function SignText(sign: Sign): string {
    match sign case Unmarked => "" case Plus => "+" case Minus => "-"
  }

  predicate IsBody(s: string) {
    forall i :: 0 <= i < |s| ==> IsDigit(s[i]) || s[i] == '_'
  }

  /** A numeral: an optional sign, digits and underscores, and optionally a point with 1 to 18 digits. */
  datatype Text = Text(sign: Sign, body: string, fraction: Option<string>) {
    predicate WellFormed() {
      && IsBody(body)
      && (fraction.Some? ==> AllDigits(fraction.value) && 1 <= |fraction.value| <= DECIMAL_PLACES)
    }

    function Before(): string {
      SignText(sign) + body
    }

    function Written(): string {
      Before() + if fraction.Some? then "." + fraction.value else ""
    }

    /** The magnitude in units of 10^-18. */
    function Magnitude(): nat
      requires WellFormed()
    {
      BodyValue(body) * ONE_POINT_ZERO +
      if fraction.Some? then (FractionBound(fraction.value); Scaled(Value(fraction.value), |fraction.value|)) else 0
    }

    function Meaning(): int
      requires WellFormed()
    {
      if sign == Minus then -(Magnitude() as int) else Magnitude()
    }
  }

  /** Digits with underscores in between, read as one number. */
  function BodyValue(s: string): nat
    requires IsBody(s)
  {
    if |s| == 0 then 0
    else if s[|s| - 1] == '_' then BodyValue(s[..|s| - 1])
    else 10 * BodyValue(s[..|s| - 1]) + DigitValue(s[|s| - 1])
  }

  // ----- The parser is exact on numerals -----

  function Signed(positive: bool, n: nat): int { if positive then n else -(n as int) }

  /** Accumulating the rest of a body after a prefix of it gives the value of the whole, unless that is
      out of range; running out of range early and late come to the same. */
  lemma {:induction false} AccumulateExact(body: string, k: nat, positive: bool)
    requires IsBody(body) && k <= |body| && Fits(Signed(positive, BodyValue(body[..k])))
    ensures Accumulate(body[k..], positive, Signed(positive, BodyValue(body[..k])))
         == Checked(Signed(positive, BodyValue(body)))
    decreases |body| - k
  {
    if k == |body| {
      assert body[..k] == body;
    } else {
      assert body[..k + 1][..k] == body[..k];
      assert body[k..][1..] == body[k + 1..];
      if Fits(Signed(positive, BodyValue(body[..k + 1]))) {
        AccumulateExact(body, k + 1, positive);
      } else {
        PrefixIsSmaller(body, k + 1);
      }
    }
  }

  lemma {:induction false} PrefixIsSmaller(body: string, k: nat)
    requires IsBody(body) && k <= |body|
    ensures BodyValue(body[..k]) <= BodyValue(body)
  {
    if k == |body| {
      assert body[..k] == body;
    } else {
      var init := body[..|body| - 1];
      PrefixIsSmaller(init, k);
      assert init[..k] == body[..k];
    }
  }

  lemma DotPosition(before: string, rest: string)
    requires forall i :: 0 <= i < |before| ==> before[i] != '.'
    ensures FirstDot(before + "." + rest) == |before|
    ensures FirstDot(before) == |before|
  {
    var s := before + "." + rest;
    assert s[|before|] == '.';
    assert forall i :: 0 <= i < |before| ==> s[i] == before[i];
  }

  lemma {:induction false} AsciiLength(s: string)
    requires AllDigits(s)
    ensures Utf8Length(s) == |s|
  {
    if |s| > 0 { AsciiLength(s[1..]); }
  }

  lemma BeforeParts(t: Text)
    requires t.WellFormed()
    ensures Unsigned(t.Before()) == t.body && Negative(t.Before()) == (t.sign == Minus)
    ensures forall i :: 0 <= i < |t.Before()| ==> t.Before()[i] != '.'
  {
    if t.sign == Unmarked { assert t.Before() == t.body; }
  }

  lemma CombineExact(hi: nat, lo: nat, positive: bool)
    requires lo < ONE_POINT_ZERO
    ensures match Checked(Signed(positive, hi))
            case None => Checked(Signed(positive, hi * ONE_POINT_ZERO + lo)) == None
            case Some(h) => Combine(h, Signed(positive, lo)) == Checked(Signed(positive, hi * ONE_POINT_ZERO + lo))
  {
  }

  lemma FractionBound(fraction: string)
    requires AllDigits(fraction) && |fraction| <= DECIMAL_PLACES
    ensures 0 <= Scaled(Value(fraction), |fraction|) < ONE_POINT_ZERO
  {
    ValueBound(fraction);
    LargePowers();
    PowersMultiply(|fraction|, DECIMAL_PLACES - |fraction|);
    ShiftedIsProduct(Value(fraction), DECIMAL_PLACES - |fraction|);
    Scale(Value(fraction), Pow10(|fraction|), Pow10(DECIMAL_PLACES - |fraction|));
  }

  lemma Scale(x: nat, y: nat, p: nat)
    requires x < y && p >= 1
    ensures 0 <= x * p < y * p
  {
  }

  lemma {:induction false} ValueBound(s: string)
    requires AllDigits(s)
    ensures Value(s) < Pow10(|s|)
  {
    if |s| > 0 { ValueBound(s[..|s| - 1]); }
  }

  /** `from_str` accepts a numeral exactly when its value fits in 128 bits, and returns that value: no
      intermediate checked step turns a representable number away. */
  lemma ParserExact(t: Text)
    requires t.WellFormed()
    ensures FromStr(t.Written()) == Checked(t.Meaning())
  {
    if t.fraction.Some? { ParserExactOnFraction(t); } else { ParserExactOnWhole(t); }
  }

  lemma ParserExactOnWhole(t: Text)
    requires t.WellFormed() && t.fraction.None?
    ensures FromStr(t.Written()) == Checked(t.Meaning())
  {
    BeforeParts(t);
    NoPoint(t.Before());
    assert t.Written() == t.Before();
    AssembleExact(t, 0);
  }

  lemma NoPoint(before: string)
    requires forall i :: 0 <= i < |before| ==> before[i] != '.'
    ensures FromStr(before) == Assemble(before, Some(0))
  {
    DotPosition(before, "");
  }

  lemma ParserExactOnFraction(t: Text)
    requires t.WellFormed() && t.fraction.Some?
    ensures FromStr(t.Written()) == Checked(t.Meaning())
  {
    var before, f := t.Before(), t.fraction.value;
    BeforeParts(t);
    SplitAtPoint(before, f);
    FractionExact(before, f);
    assert FromStr(t.Written()) == Assemble(before, ParseFraction(before, f));
    AssembleExact(t, Scaled(Value(f), |f|));
  }

  lemma AssembleExact(t: Text, lo: nat)
    requires t.WellFormed() && lo < ONE_POINT_ZERO
    ensures var positive := t.sign != Minus;
            Assemble(t.Before(), Some(Signed(positive, lo)))
            == Checked(Signed(positive, BodyValue(t.body) * ONE_POINT_ZERO + lo))
  {
    BeforeParts(t);
    AccumulateExact(t.body, 0, t.sign != Minus);
    assert t.body[0..] == t.body;
    CombineExact(BodyValue(t.body), lo, t.sign != Minus);
  }

  lemma SplitAtPoint(before: string, after: string)
    requires forall i :: 0 <= i < |before| ==> before[i] != '.'
    ensures var s := before + ("." + after);
            && FirstDot(s) == |before| < |s| && s[..|before|] == before && s[|before| + 1..] == after
  {
    DotPosition(before, after);
    assert before + ("." + after) == before + "." + after;
  }

  lemma FractionExact(before: string, fraction: string)
    requires AllDigits(fraction) && 1 <= |fraction| <= DECIMAL_PLACES
    ensures FirstDot(fraction) == |fraction|
    ensures var lo := Scaled(Value(fraction), |fraction|);
            0 <= lo < ONE_POINT_ZERO && ParseFraction(before, fraction) == Some(Signed(!Negative(before), lo))
  {
    NoDotInDigits(fraction);
    AsciiLength(fraction);
    FractionBound(fraction);
    assert Unsigned(fraction) == fraction;
    ScaleParsed(before, fraction, Value(fraction));
  }

  lemma ScaleParsed(before: string, after: string, n: int)
    requires Utf8Length(after) <= DECIMAL_PLACES && ParseInt(after) == Some(n)
    ensures ParseFraction(before, after)
         == Some(WithSignOf(before, Scaled(n, |after|)))
  {
  }

  lemma NoDotInDigits(f: string)
    requires AllDigits(f)
    ensures FirstDot(f) == |f|
  {
  }

  // ----- The printer -----

  /** `{:019}`: at least 19 characters, the sign included, filled up with zeros. */
  function Formatted(v: int): string {
    if v < 0 then "-" + ZeroFilled(-v, 18) else ZeroFilled(v, 19)
  }

  function Abs(v: int): nat { if v < 0 then -v else v }

  /** The canonical numeral of a value: no zeros at the end of the fraction, no point without one, and
      no integer digits at all between -1 and 0. */
  function Canonical(v: int): Text {
    var hi, lo := High(Abs(v), DECIMAL_PLACES), Low(Abs(v), DECIMAL_PLACES);
    var digits := Decimals18(v);
    Text(if v < 0 then Minus else Unmarked,
         if v < 0 && hi == 0 then "" else Numeral(hi),
         if lo == 0 then None else Some(digits[..TrimmedLength(digits)]))
  }

  /** All 18 decimals of a value. */
  function Decimals18(v: int): (s: string)
    ensures AllDigits(s) && |s| == DECIMAL_PLACES
  {
    Padded(Low(Abs(v), DECIMAL_PLACES), DECIMAL_PLACES)
  }

  lemma CanonicalMeaning(v: int)
    ensures Canonical(v).WellFormed() && Canonical(v).Meaning() == v
  {
    CanonicalBody(v);
    CanonicalFraction(v);
    HighAndLow(Abs(v));
    MeaningOf(Canonical(v), High(Abs(v), DECIMAL_PLACES), Low(Abs(v), DECIMAL_PLACES));
  }

  lemma HighAndLow(m: nat)
    ensures High(m, DECIMAL_PLACES) * ONE_POINT_ZERO + Low(m, DECIMAL_PLACES) == m
  {
    LargePowers();
    Division(m, Pow10(DECIMAL_PLACES));
  }

  lemma MeaningOf(t: Text, hi: nat, lo: nat)
    requires t.WellFormed() && BodyValue(t.body) == hi
    requires if t.fraction.Some? then Scaled(Value(t.fraction.value), |t.fraction.value|) == lo else lo == 0
    ensures t.Meaning() == Signed(t.sign != Minus, hi * ONE_POINT_ZERO + lo)
  {
  }

  lemma CanonicalBody(v: int)
    ensures IsBody(Canonical(v).body) && BodyValue(Canonical(v).body) == High(Abs(v), DECIMAL_PLACES)
  {
    var hi := High(Abs(v), DECIMAL_PLACES);
    NumeralValue(hi);
    PlainBody(Numeral(hi));
  }

  lemma CanonicalFraction(v: int)
    ensures var lo, f := Low(Abs(v), DECIMAL_PLACES), Canonical(v).fraction;
            && (f.None? <==> lo == 0)
            && (f.Some? ==> AllDigits(f.value) && 1 <= |f.value| <= DECIMAL_PLACES
                            && f.value[|f.value| - 1] != '0' && Scaled(Value(f.value), |f.value|) == lo)
  {
    var digits := Decimals18(v);
    var k := TrimmedLength(digits);
    PaddedValue(Low(Abs(v), DECIMAL_PLACES), DECIMAL_PLACES);
    ZerosTrimAway(digits);
    TrimmedScaled(digits);
  }

  lemma TrimmedScaled(digits: string)
    requires AllDigits(digits) && |digits| == DECIMAL_PLACES
    ensures var k := TrimmedLength(digits);
            Scaled(Value(digits[..k]), k) == Value(digits)
  {
    var k := TrimmedLength(digits);
    TrimmedValue(digits);
    ShiftedIsProduct(Value(digits[..k]), DECIMAL_PLACES - k);
  }

  lemma {:induction false} PlainBody(s: string)
    requires AllDigits(s)
    ensures IsBody(s) && BodyValue(s) == Value(s)
  {
    if |s| > 0 { PlainBody(s[..|s| - 1]); }
  }

  /** Printing and parsing undo each other for every 128-bit value. */
  lemma RoundTrip(v: int)
    requires Fits(v)
    ensures FromStr(Canonical(v).Written()) == Some(v)
  {
    CanonicalMeaning(v);
    ParserExact(Canonical(v));
  }

  /** The printed text fits in the 41-byte buffer, and a fraction never ends in a zero. */
  lemma CanonicalShape(v: int)
    requires Fits(v)
    ensures |Canonical(v).Written()| <= 41 == MAX_STR_LENGTH
    ensures var f := Canonical(v).fraction;
            f.Some? ==> 1 <= |f.value| <= DECIMAL_PLACES && f.value[|f.value| - 1] != '0'
  {
    CanonicalFraction(v);
    IntegerLength(v);
  }

  lemma IntegerLength(v: int)
    requires Fits(v)
    ensures |Canonical(v).Before()| <= 22
  {
    LargePowers();
    Division(Abs(v), Pow10(DECIMAL_PLACES));
    ShortNumeral(High(Abs(v), DECIMAL_PLACES), 21);
  }

  /** The integer digits printed for a magnitude, and whether at least one is wanted. */
  function Head(m: nat, high: nat): string {
    if high == 0 && High(m, DECIMAL_PLACES) == 0 then "" else Numeral(High(m, DECIMAL_PLACES))
  }

  /** The formatted digits are the canonical integer part followed by all 18 decimals. */
  lemma FormattedParts(v: int)
    requires v != 0
    ensures Formatted(v) == Canonical(v).Before() + Decimals18(v)
  {
    CanonicalBefore(v);
    if v < 0 {
      ZeroFilledParts(-v, 0);
      Regroup(Head(-v, 0), Decimals18(v));
    } else {
      ZeroFilledParts(v, 1);
    }
  }

  lemma Regroup(head: string, tail: string)
    ensures "-" + (head + tail) == ("-" + head) + tail
  {
  }

  /** Digits filled up to 18 decimals and `high` integer places split at the point. */
  lemma ZeroFilledParts(m: nat, high: nat)
    requires high <= 1
    ensures ZeroFilled(m, high + 18) == Head(m, high) + Padded(Low(m, DECIMAL_PLACES), DECIMAL_PLACES)
  {
    if m < Pow10(high + 18) {
      SplitPadded(m, high, 18);
      ShortHead(m, high);
    } else {
      LongHead(m, high);
      SplitNumeral(m, 18);
    }
  }

  lemma ShortHead(m: nat, high: nat)
    requires high <= 1 && m < Pow10(high + 18)
    ensures Padded(High(m, 18), high) == Head(m, high)
  {
    NoHighDigits(m, 18);
    if high == 1 { OneDigit(m); }
  }

  lemma LongHead(m: nat, high: nat)
    requires high <= 1 && m >= Pow10(high + 18)
    ensures m >= Pow10(18) && Head(m, high) == Numeral(High(m, 18))
  {
    LargePowers();
    NoHighDigits(m, 18);
  }

  lemma OneDigit(m: nat)
    requires m < Pow10(19)
    ensures Padded(High(m, 18), 1) == Numeral(High(m, 18))
  {
    LargePowers();
    Division(m, Pow10(18));
    assert High(m, 18) < 10;
  }

  lemma CanonicalBefore(v: int)
    ensures Canonical(v).Before() == if v < 0 then "-" + Head(-v, 0) else Head(v, 1)
  {
    assert "" + Canonical(v).body == Canonical(v).body;
  }

  lemma FormattedLength(v: int)
    requires Fits(v) && v != 0
    ensures DECIMAL_PLACES <= |Formatted(v)| < MAX_STR_LENGTH
  {
    LargePowers();
    if Abs(v) >= Pow10(if v < 0 then 18 else 19) { ShortNumeral(Abs(v), 39); }
  }

  /** `trim_end_matches('0').len()` */
  method TrimEnd(buffer: array<char>, length: nat) returns (last: nat)
    requires length <= buffer.Length
    ensures last == TrimmedLength(buffer[..length])
  {
    last := length;
    while last > 0 && buffer[last - 1] == '0'
      invariant last <= length
      invariant forall i :: last <= i < length ==> buffer[i] == '0'
    {
      last := last - 1;
    }
    TrimmedUnique(buffer[..length], last);
  }

  /** Shift `buffer[point..last]` up by one and put the point into the gap. */
  method InsertPoint(buffer: array<char>, point: nat, last: nat)
    requires point <= last < buffer.Length
    modifies buffer
    ensures buffer[..last + 1] == old(buffer[..point]) + ("." + old(buffer[point..last]))
  {
    var i := last;
    while i > point
      invariant point <= i <= last
      invariant forall k :: 0 <= k < i ==> buffer[k] == old(buffer[k])
      invariant forall k :: i < k <= last ==> buffer[k] == old(buffer[k - 1])
    {
      buffer[i] := buffer[i - 1];
      i := i - 1;
    }
    buffer[point] := '.';
  }

  /** The formatted text with its trailing zeros cut and a point put before the decimals that are left,
      if any. */
  function WithPoint(written: string): string
    requires DECIMAL_PLACES <= |written|
  {
    var point, last := |written| - DECIMAL_PLACES, TrimmedLength(written);
    if last <= point then written[..point] else written[..point] + ("." + written[point..last])
  }

  /** The editing part of `to_str_helper`, in a buffer of 41 characters: cut the trailing zeros, and
      shift the fraction by one place to make room for the point. */
  method Edit(written: string) returns (text: string)
    requires DECIMAL_PLACES <= |written| < MAX_STR_LENGTH
    ensures text == WithPoint(written) && |text| <= MAX_STR_LENGTH
  {
    var buffer := new char[MAX_STR_LENGTH](i => if 0 <= i < |written| then written[i] else '$');
    var length := |written|;
    assert buffer[..length] == written;
    var point := length - DECIMAL_PLACES;
    var last := TrimEnd(buffer, length);
    assert buffer[..point] == buffer[..length][..point];
    if last <= point {
      return buffer[..point];
    }
    assert buffer[point..last] == buffer[..length][point..last];
    InsertPoint(buffer, point, last);
    text := buffer[..last + 1];
  }

  /** `to_str_helper` prints the canonical numeral. */
  method Print(v: int) returns (text: string)
    requires Fits(v)
    ensures text == Canonical(v).Written()
  {
    if v == 0 {
      CanonicalZero();
      return "0";
    }
    FormattedLength(v);
    CanonicalIsEdited(v);
    text := Edit(Formatted(v));
  }

  lemma CanonicalZero()
    ensures Canonical(0).Written() == "0"
  {
    NoHighDigits(0, DECIMAL_PLACES);
    LargePowers();
    assert Canonical(0).body == "0" && Canonical(0).fraction == None;
  }

  lemma CanonicalIsEdited(v: int)
    requires v != 0
    ensures |Formatted(v)| >= DECIMAL_PLACES && WithPoint(Formatted(v)) == Canonical(v).Written()
  {
    FormattedParts(v);
    EditedParts(Canonical(v).Before(), Decimals18(v));
    PaddedValue(Low(Abs(v), DECIMAL_PLACES), DECIMAL_PLACES);
    ZerosTrimAway(Decimals18(v));
  }

  lemma EditedParts(before: string, digits: string)
    requires |digits| == DECIMAL_PLACES
    ensures var k := TrimmedLength(digits);
            WithPoint(before + digits) == if k == 0 then before else before + ("." + digits[..k])
  {
    TrimmedTail(before, digits);
    var written, last := before + digits, TrimmedLength(before + digits);
    assert written[..|before|] == before;
    if last > |before| { assert written[|before|..last] == digits[..last - |before|]; }
  }

  // ----- Literal anchors -----

  /** The values are those of a signed word of 128 bits. */
  lemma WordRange(v: int)
    ensures Fits(v) <==> -0x8000_0000_0000_0000_0000_0000_0000_0000 <= v < 0x8000_0000_0000_0000_0000_0000_0000_0000
  {
  }

  /** The length of a text in bytes adds up over its characters, which take one to four bytes each. */
  lemma {:induction false} LengthInBytes(s: string, t: string)
    ensures Utf8Length(s + t) == Utf8Length(s) + Utf8Length(t)
    ensures forall c: char :: Utf8Length([c]) ==
              if c as int <= 0x7F then 1 else if c as int <= 0x7FF then 2 else if c as int <= 0xFFFF then 3 else 4
  {
    if |s| == 0 {
      assert s + t == t;
    } else {
      assert (s + t)[1..] == s[1..] + t;
      LengthInBytes(s[1..], t);
    }
    forall c: char ensures Utf8Length([c][1..]) == 0 {
    }
  }

  /** A text without its underscores. */
  function WithoutUnderscores(s: string): string {
    if |s| == 0 then ""
    else WithoutUnderscores(s[..|s| - 1]) + if s[|s| - 1] == '_' then "" else [s[|s| - 1]]
  }

  /** Underscores between digits mean nothing: a body is worth what its digits alone are worth. */
  lemma {:induction false} UnderscoresMeanNothing(s: string)
    requires IsBody(s)
    ensures AllDigits(WithoutUnderscores(s)) && BodyValue(s) == Value(WithoutUnderscores(s))
  {
    if |s| > 0 {
      var init, front := s[..|s| - 1], WithoutUnderscores(s[..|s| - 1]);
      UnderscoresMeanNothing(init);
      if s[|s| - 1] == '_' {
        assert WithoutUnderscores(s) == front;
      } else {
        assert WithoutUnderscores(s)[..|front|] == front;
      }
    }
  }

  lemma NextDigit(s: string, k: nat, before: nat, d: nat)
    requires IsBody(s) && k < |s| && d < 10 && s[k] == DIGITS[d] && BodyValue(s[..k]) == before
    ensures BodyValue(s[..k + 1]) == 10 * before + d
  {
    DigitsInOrder();
    assert s[..k + 1][..k] == s[..k];
  }

  lemma FiveDigits(s: string)
    requires s == "1234567890"
    ensures IsBody(s) && BodyValue(s[..5]) == 12345
  {
    assert s[..0] == "";
    NextDigit(s, 0, 0, 1);
    NextDigit(s, 1, 1, 2);
    NextDigit(s, 2, 12, 3);
    NextDigit(s, 3, 123, 4);
    NextDigit(s, 4, 1234, 5);
  }

  lemma TenDigits(s: string)
    requires s == "1234567890"
    ensures IsBody(s) && BodyValue(s) == 1234567890
  {
    FiveDigits(s);
    NextDigit(s, 5, 12345, 6);
    NextDigit(s, 6, 123456, 7);
    NextDigit(s, 7, 1234567, 8);
    NextDigit(s, 8, 12345678, 9);
    NextDigit(s, 9, 123456789, 0);
    assert s[..10] == s;
  }

  lemma WholeNumeral(body: string)
    ensures Text(Unmarked, body, None).Written() == body
  {
    assert "" + body == body && body + "" == body;
  }

  /** A numeral with all ten digits is read as the number it is written for. */
  lemma TenDigitsAreRead()
    ensures FromStr("1234567890") == Some(1_234_567_890_000_000_000_000_000_000)
  {
    var t := Text(Unmarked, "1234567890", None);
    TenDigits("1234567890");
    WholeNumeral("1234567890");
    ParserExact(t);
  }

  // ----- Beyond the grammar -----

  /** The answer in unbounded arithmetic: the text before the point is a body of digits and underscores
      after an optional sign, and both its scaled value and the sum with the fraction fit. */
  function Unbounded(before: string, lo: int): Option<int> {
    if !IsBody(Unsigned(before)) then None
    else
      var hi := Signed(!Negative(before), BodyValue(Unsigned(before))) * ONE_POINT_ZERO;
      if Fits(hi) then Checked(hi + lo) else None
  }

  lemma {:induction false} AccumulateRejects(digits: string, positive: bool, hi: int)
    requires !IsBody(digits)
    ensures Accumulate(digits, positive, hi) == None
    decreases |digits|
  {
    if digits[0] == '_' || IsDigit(digits[0]) {
      assert !IsBody(digits[1..]) by {
        var i :| 0 <= i < |digits| && !(IsDigit(digits[i]) || digits[i] == '_');
        assert digits[1..][i - 1] == digits[i];
      }
      var d: int := if digits[0] == '_' then 0 else DigitValue(digits[0]);
      AccumulateRejects(digits[1..], positive,
                        if digits[0] == '_' then hi else if positive then hi * 10 + d else hi * 10 - d);
    }
  }

  lemma AssembleUnbounded(before: string, lo: int)
    ensures Assemble(before, Some(lo)) == Unbounded(before, lo)
  {
    var body, positive := Unsigned(before), !Negative(before);
    if IsBody(body) {
      AccumulateExact(body, 0, positive);
      assert body[0..] == body;
    } else {
      AccumulateRejects(body, positive, 0);
    }
  }

  /** What stands after the integer part of a text that the parser accepts: nothing, a point with an
      integer of at most 18 bytes that may carry a sign of its own, or a point with more than 18 bytes
      of anything but points, which count for nothing. */
  datatype Tail = Whole | Fraction(sign: Sign, digits: string) | Dropped(text: string)

  /** The texts the parser accepts, in or out of the grammar of numerals. */
  datatype Reading = Reading(sign: Sign, body: string, tail: Tail) {
    predicate WellFormed() {
      && IsBody(body)
      && (match tail
          case Whole => true
          case Fraction(mark, digits) =>
            AllDigits(digits) && |digits| >= 1 && |SignText(mark) + digits| <= DECIMAL_PLACES
          case Dropped(text) => '.' !in text && Utf8Length(text) > DECIMAL_PLACES)
    }

    function Before(): string {
      SignText(sign) + body
    }

    function Written(): string {
      match tail
      case Whole => Before()
      case Fraction(mark, digits) => Before() + ("." + (SignText(mark) + digits))
      case Dropped(text) => Before() + ("." + text)
    }

    /** The integer part, in units of 10^-18. */
    function IntegerUnits(): int
      requires WellFormed()
    {
      Signed(sign != Minus, BodyValue(body)) * ONE_POINT_ZERO
    }

    /** The signs before and after the point multiply, and a sign after the point takes up a place. */
    function FractionUnits(): int
      requires WellFormed()
    {
      match tail
      case Fraction(mark, digits) =>
        var units := Value(digits) * Pow10(DECIMAL_PLACES - |SignText(mark) + digits|);
        if (sign == Minus) == (mark == Minus) then units else -(units as int)
      case _ => 0
    }

    function Meaning(): int
      requires WellFormed()
    {
      IntegerUnits() + FractionUnits()
    }
  }

  lemma ReadingParts(before: string, sign: Sign, body: string)
    requires IsBody(body) && before == SignText(sign) + body
    ensures Unsigned(before) == body && Negative(before) == (sign == Minus)
    ensures forall i :: 0 <= i < |before| ==> before[i] != '.'
  {
    BeforeParts(Text(sign, body, None));
  }

  lemma MarkedInteger(mark: Sign, digits: string)
    requires AllDigits(digits) && |digits| >= 1
    ensures var after := SignText(mark) + digits;
            && FirstDot(after) == |after| == Utf8Length(after)
            && ParseInt(after) == Some(Signed(mark != Minus, Value(digits)))
  {
    var after := SignText(mark) + digits;
    assert IsBody(digits);
    ReadingParts(after, mark, digits);
    DotPosition(after, "");
    AsciiLength(digits);
    if mark == Unmarked { assert after == digits; } else { assert after[1..] == digits; }
  }

  lemma SignedProduct(positive: bool, n: nat, p: nat)
    ensures Signed(positive, n) * p == Signed(positive, n * p)
  {
  }

  lemma FractionRead(before: string, mark: Sign, digits: string)
    requires AllDigits(digits) && |digits| >= 1 && |SignText(mark) + digits| <= DECIMAL_PLACES
    ensures var after := SignText(mark) + digits;
            && FirstDot(after) == |after|
            && ParseFraction(before, after)
               == Some(Signed(Negative(before) == (mark == Minus), Value(digits) * Pow10(DECIMAL_PLACES - |after|)))
  {
    MarkedInteger(mark, digits);
    var after, n := SignText(mark) + digits, Signed(mark != Minus, Value(digits));
    ScaleParsed(before, after, n);
    ShiftedIsProduct(n, DECIMAL_PLACES - |after|);
    SignedProduct(mark != Minus, Value(digits), Pow10(DECIMAL_PLACES - |after|));
  }

  /** On every text it accepts the parser computes the meaning of its reading, unless the integer part
      alone or the whole is out of range. */
  lemma ReadingExact(x: Reading)
    requires x.WellFormed()
    ensures FromStr(x.Written()) == if Fits(x.IntegerUnits()) then Checked(x.Meaning()) else None
  {
    ReadingSplits(x);
    AssembledReading(x, x.FractionUnits());
  }

  lemma AssembledReading(x: Reading, lo: int)
    requires x.WellFormed()
    ensures Assemble(x.Before(), Some(lo)) == if Fits(x.IntegerUnits()) then Checked(x.IntegerUnits() + lo) else None
  {
    AssembleUnbounded(x.Before(), lo);
    UnboundedOn(x.Before(), x.sign, x.body, lo);
  }

  lemma UnboundedOn(before: string, sign: Sign, body: string, lo: int)
    requires IsBody(body) && before == SignText(sign) + body
    ensures var hi := Signed(sign != Minus, BodyValue(body)) * ONE_POINT_ZERO;
            Unbounded(before, lo) == if Fits(hi) then Checked(hi + lo) else None
  {
    ReadingParts(before, sign, body);
  }

  lemma ReadingSplits(x: Reading)
    requires x.WellFormed()
    ensures FromStr(x.Written()) == Assemble(x.Before(), Some(x.FractionUnits()))
  {
    var before := x.Before();
    ReadingParts(before, x.sign, x.body);
    match x.tail
    case Whole => NoPoint(before);
    case Fraction(mark, digits) =>
      FractionRead(before, mark, digits);
      PointSplits(before, SignText(mark) + digits);
    case Dropped(text) =>
      PointSplits(before, text);
  }

  lemma PointSplits(before: string, after: string)
    requires '.' !in before && '.' !in after
    ensures FromStr(before + ("." + after)) == Assemble(before, ParseFraction(before, after))
  {
    SplitAtPoint(before, after);
    DotPosition(after, "");
  }

  function SignOf(s: string): Sign {
    if |s| == 0 then Unmarked else if s[0] == '+' then Plus else if s[0] == '-' then Minus else Unmarked
  }

  lemma SignAndRest(s: string)
    ensures s == SignText(SignOf(s)) + Unsigned(s)
  {
  }

  /** Nothing else is accepted. */
  lemma OnlyReadings(s: string) returns (x: Reading)
    requires FromStr(s).Some?
    ensures x.WellFormed() && x.Written() == s
    ensures x.tail.Whole? <==> FirstDot(s) == |s|
    ensures FirstDot(s) < |s| ==>
              var after := s[FirstDot(s) + 1..];
              && (x.tail.Dropped? <==> Utf8Length(after) > DECIMAL_PLACES)
              && (x.tail.Fraction? ==> x.tail.sign == SignOf(after))
  {
    var dot := FirstDot(s);
    var before := s[..dot];
    SignAndRest(before);
    AssembleUnbounded(before, 0);
    if dot == |s| {
      assert before == s;
      x := Reading(SignOf(before), Unsigned(before), Whole);
    } else {
      var after := s[dot + 1..];
      assert s == before + ("." + after);
      AssembleUnbounded(before, ParseFraction(before, after).value);
      FractionIsInteger(before, after);
      x := Reading(SignOf(before), Unsigned(before),
                   if Utf8Length(after) > DECIMAL_PLACES then Dropped(after)
                   else Fraction(SignOf(after), Unsigned(after)));
    }
  }

  lemma FractionIsInteger(before: string, after: string)
    requires ParseFraction(before, after).Some?
    ensures after == SignText(SignOf(after)) + Unsigned(after)
    ensures Utf8Length(after) <= DECIMAL_PLACES ==>
              AllDigits(Unsigned(after)) && |Unsigned(after)| >= 1 && |after| <= DECIMAL_PLACES
  {
    SignAndRest(after);
  }

  /** The parser on every text whatsoever: it answers v exactly when the text has a reading that means v
      and whose integer part and value fit in 128 bits. */
  lemma ParserTotal(s: string, v: int)
    ensures FromStr(s) == Some(v)
       <==> exists x: Reading ::
              x.WellFormed() && x.Written() == s && x.Meaning() == v && Fits(v) && Fits(x.IntegerUnits())
  {
    if FromStr(s) == Some(v) {
      var x := OnlyReadings(s);
      ReadingExact(x);
    }
    if x: Reading :| x.WellFormed() && x.Written() == s && x.Meaning() == v && Fits(v) && Fits(x.IntegerUnits()) {
      ReadingExact(x);
    }
  }

  /** No point, or a point followed by at least one byte, at most 18, and no sign first. */
  predicate PlainFraction(s: string) {
    FirstDot(s) < |s| ==>
      var after := s[FirstDot(s) + 1..];
      1 <= Utf8Length(after) <= DECIMAL_PLACES && !IsSign(after[0])
  }

  /** An accepted text is a numeral that means the answer exactly when its fraction is plain. */
  lemma NumeralIffPlain(s: string)
    requires FromStr(s).Some?
    ensures (exists t: Text :: t.WellFormed() && t.Written() == s && t.Meaning() == FromStr(s).value)
       <==> PlainFraction(s)
  {
    if PlainFraction(s) { PlainIsNumeral(s); }
    if t: Text :| t.WellFormed() && t.Written() == s { NumeralIsPlain(t); }
  }

  lemma PlainIsNumeral(s: string)
    requires FromStr(s).Some? && PlainFraction(s)
    ensures exists t: Text :: t.WellFormed() && t.Written() == s && t.Meaning() == FromStr(s).value
  {
    var t := PlainNumeral(s);
    assert t.Meaning() == FromStr(s).value;
  }

  lemma PlainNumeral(s: string) returns (t: Text)
    requires FromStr(s).Some? && PlainFraction(s)
    ensures t.WellFormed() && t.Written() == s && FromStr(s) == Some(t.Meaning())
  {
    var x := PlainReading(s);
    t := PlainText(x);
    ParserExact(t);
  }

  lemma PlainReading(s: string) returns (x: Reading)
    requires FromStr(s).Some? && PlainFraction(s)
    ensures x.WellFormed() && x.Written() == s && !x.tail.Dropped? && (x.tail.Fraction? ==> x.tail.sign == Unmarked)
  {
    x := OnlyReadings(s);
  }

  /** A reading without a sign after the point, and with nothing dropped, is a numeral. */
  lemma PlainText(x: Reading) returns (t: Text)
    requires x.WellFormed() && !x.tail.Dropped? && (x.tail.Fraction? ==> x.tail.sign == Unmarked)
    ensures t.WellFormed() && t.Written() == x.Written()
  {
    t := Text(x.sign, x.body, if x.tail.Fraction? then Some(x.tail.digits) else None);
    if x.tail.Fraction? { assert "" + x.tail.digits == x.tail.digits; } else { assert x.Before() + "" == x.Before(); }
  }

  lemma NumeralIsPlain(t: Text)
    requires t.WellFormed()
    ensures PlainFraction(t.Written())
  {
    BeforeParts(t);
    if t.fraction.Some? {
      SplitAtPoint(t.Before(), t.fraction.value);
      AsciiLength(t.fraction.value);
    } else {
      assert t.Written() == t.Before();
      DotPosition(t.Before(), "");
    }
  }

  /** A fraction of more than 18 bytes is dropped without a word: the text means what stands before
      the point. */
  lemma LongFractionIgnored(before: string, after: string)
    requires FirstDot(before) == |before| && FirstDot(after) == |after| && Utf8Length(after) > DECIMAL_PLACES
    ensures FromStr(before + "." + after) == FromStr(before)
  {
    DotPosition(before, after);
    var s := before + "." + after;
    assert s[..|before|] == before && s[|before| + 1..] == after && before[..|before|] == before;
  }

  /** A sign is accepted after the point, and counts as one of the digits. */
  lemma SignedFractionAccepted()
    ensures FromStr("1.-5") == Some(950_000_000_000_000_000) && !PlainFraction("1.-5")
  {
    var x := Reading(Unmarked, "1", Fraction(Minus, "5"));
    assert "1" + ("." + ("-" + "5")) == "1.-5";
    assert "" + "1" == "1" == x.Before();
    MinusFiveHundredths();
    ReadingExact(x);
    SplitAtPoint("1", "-5");
  }

  lemma MinusFiveHundredths()
    ensures BodyValue("1") == 1 && Value("5") == 5 && |"-" + "5"| == 2
    ensures Pow10(16) == 10_000_000_000_000_000
  {
    LargePowers();
    PowersMultiply(2, 16);
    assert Pow10(2) == 100;
    assert "1"[..0] == "" == "5"[..0];
  }
}
