/**
Amounts as text: the decimal parser that the Aave and Compound adapters share, and the scaled-decimal
printer of the Compound service.
*/
module Decimal {
  import opened Wrappers
  import opened Arithmetic

  // ---- Digits -------------------------------------------------------------------------------

  predicate IsDigit(c: char) {
    '0' <= c <= '9'
  }

  predicate AllDigits(s: string) {
    forall i :: 0 <= i < |s| ==> IsDigit(s[i])
  }

  function DigitValue(c: char): nat
    requires IsDigit(c)
  {
    c as int - '0' as int
  }

  function DigitChar(d: nat): (c: char)
    requires d < 10
    ensures IsDigit(c) && DigitValue(c) == d
  {
    ('0' as int + d) as char
  }

  /** The number a digit string denotes; the empty string denotes zero. */
  function Number(s: string): nat
    requires AllDigits(s)
  {
    if s == "" then 0 else 10 * Number(s[..|s| - 1]) + DigitValue(s[|s| - 1])
  }

  function Print(n: nat): (s: string)
    ensures AllDigits(s) && s != ""
  {
    if n < 10 then [DigitChar(n)] else Print(n / 10) + [DigitChar(n % 10)]
  }

  /** `U256::from_dec_str`: digits only, value below 2^256. */
  function FromDecStr(s: string): Option<U256> {
    if AllDigits(s) && Number(s) < WORD then Some(Number(s)) else None
  }

  lemma {:induction false} NumberOfPrint(n: nat)
    ensures Number(Print(n)) == n
  {
    if n >= 10 {
      NumberOfPrint(n / 10);
      assert Print(n)[..|Print(n)| - 1] == Print(n / 10);
    }
  }

  lemma {:induction false} PrintLength(n: nat, k: nat)
    requires k > 0 && n < Pow10(k)
    ensures |Print(n)| <= k
  {
    if n >= 10 {
      assert k > 1 && n / 10 < Pow10(k - 1);
      PrintLength(n / 10, k - 1);
    }
  }

  lemma {:induction false} NumberConcat(a: string, b: string)
    requires AllDigits(a) && AllDigits(b)
    ensures AllDigits(a + b) && Number(a + b) == Number(a) * Pow10(|b|) + Number(b)
  {
    if b == "" {
      assert a + b == a;
    } else {
      var b' := b[..|b| - 1];
      NumberConcat(a, b');
      TenTimes(Number(a), Pow10(|b'|));
      assert (a + b)[..|a + b| - 1] == a + b';
      assert Number(a + b) == 10 * Number(a + b') + DigitValue(b[|b| - 1]);
    }
  }

  function Zeros(n: nat): (s: string)
    ensures |s| == n && AllDigits(s)
  {
    seq(n, i => '0')
  }

  lemma {:induction false} NumberOfZeros(n: nat)
    ensures Number(Zeros(n)) == 0
  {
    if n > 0 {
      assert Zeros(n)[..n - 1] == Zeros(n - 1);
      NumberOfZeros(n - 1);
    }
  }

  /** `trim_start_matches('0')`. */
  function TrimZeros(s: string): (t: string)
    ensures |t| <= |s|
    ensures AllDigits(s) ==> AllDigits(t)
  {
    if s != "" && s[0] == '0' then TrimZeros(s[1..]) else s
  }

  lemma {:induction false} TrimZerosKeepsNumber(s: string)
    requires AllDigits(s)
    ensures Number(TrimZeros(s)) == Number(s)
  {
    if s != "" && s[0] == '0' {
      TrimZerosKeepsNumber(s[1..]);
      NumberConcat("0", s[1..]);
      assert "0" + s[1..] == s;
      assert Number("0") == 0;
    }
  }

  // ---- White space --------------------------------------------------------------------------

  /** The characters with the Unicode property White_Space. */
  predicate IsSpace(c: char) {
    || '\U{9}' <= c <= '\U{D}' || c == ' ' || c == '\U{85}' || c == '\U{A0}' || c == '\U{1680}'
    || '\U{2000}' <= c <= '\U{200A}' || c == '\U{2028}' || c == '\U{2029}' || c == '\U{202F}'
    || c == '\U{205F}' || c == '\U{3000}'
  }

  function TrimStart(s: string): (t: string)
    ensures |t| <= |s|
    ensures t != "" ==> !IsSpace(t[0])
  {
    if s != "" && IsSpace(s[0]) then TrimStart(s[1..]) else s
  }

  function TrimEnd(s: string): (t: string)
    ensures |t| <= |s|
    ensures t != "" ==> !IsSpace(t[|t| - 1])
  {
    if s != "" && IsSpace(s[|s| - 1]) then TrimEnd(s[..|s| - 1]) else s
  }

  function Trim(s: string): string {
    TrimEnd(TrimStart(s))
  }

  lemma TrimIdle(s: string)
    requires s != "" ==> !IsSpace(s[0]) && !IsSpace(s[|s| - 1])
    ensures Trim(s) == s
  {
  }

  predicate AllSpace(s: string) {
    forall i :: 0 <= i < |s| ==> IsSpace(s[i])
  }

  lemma {:induction false} TrimStartIs(s: string)
    ensures var n := |s| - |TrimStart(s)|; s[n..] == TrimStart(s) && AllSpace(s[..n])
  {
    if s != "" && IsSpace(s[0]) {
      TrimStartIs(s[1..]);
      var n := |s| - |TrimStart(s)|;
      assert s[..n] == [s[0]] + s[1..][..n - 1];
    }
  }

  lemma {:induction false} TrimEndIs(s: string)
    ensures var n := |TrimEnd(s)|; s[..n] == TrimEnd(s) && AllSpace(s[n..])
  {
    if s != "" && IsSpace(s[|s| - 1]) {
      var front := s[..|s| - 1];
      TrimEndIs(front);
      var n := |TrimEnd(s)|;
      assert s[n..] == front[n..] + [s[|s| - 1]];
    }
  }

  lemma TrimEndKeepsStart(s: string)
    requires s != "" ==> !IsSpace(s[0])
    ensures TrimEnd(s) != "" ==> !IsSpace(TrimEnd(s)[0])
  {
    TrimEndIs(s);
  }

  /** Trimming takes white space off both ends, and all of it. */
  lemma TrimIs(s: string)
    ensures exists before, after :: AllSpace(before) && AllSpace(after) && s == before + Trim(s) + after
    ensures Trim(s) != "" ==> !IsSpace(Trim(s)[0]) && !IsSpace(Trim(s)[|Trim(s)| - 1])
  {
    var t := TrimStart(s);
    TrimStartIs(s);
    TrimEndIs(t);
    TrimEndKeepsStart(t);
    var before, after := s[..|s| - |t|], t[|Trim(s)|..];
    assert s == before + Trim(s) + after;
  }

  // ---- The parser ---------------------------------------------------------------------------

  datatype AmountError = Required | Negative | TooManyPoints | NotDecimal | TooManyPlaces | TooLarge

  function Split(s: string, sep: char): (parts: seq<string>)
    ensures parts != []
  {
    if s == "" then [""]
    else
      var rest := Split(s[1..], sep);
      if s[0] == sep then [""] + rest else [[s[0]] + rest[0]] + rest[1..]
  }

  function ParseDecimalAmount(raw: string, decimals: nat): Result<U256, AmountError> {
    var trimmed := Trim(raw);
    if trimmed == "" then Err(Required)
    else if trimmed[0] == '-' then Err(Negative)
    else
      var parts := Split(trimmed, '.');
      if |parts| > 2 then Err(TooManyPoints)
      else
        var whole, fractional := parts[0], if |parts| == 2 then parts[1] else "";
        if whole == "" && fractional == "" then Err(Required)
        else if !AllDigits(whole) || !AllDigits(fractional) then Err(NotDecimal)
        else if |fractional| > decimals then Err(TooManyPlaces)
        else Normalized(whole, fractional, decimals)
  }

  function Normalized(whole: string, fractional: string, decimals: nat): Result<U256, AmountError>
    requires |fractional| <= decimals
  {
    var normalized := (if whole == "" then "0" else whole) + fractional + Zeros(decimals - |fractional|);
    var digits := TrimZeros(normalized);
    if digits == "" then Ok(0)
    else match FromDecStr(digits)
      case Some(v) => Ok(v)
      case None => Err(TooLarge)
  }

  /** `text` reads `whole`, or `whole.fractional`, with at least one digit and at most k places. */
  predicate Shape(text: string, whole: string, fractional: string, k: nat) {
    && (text == whole + "." + fractional || (text == whole && fractional == ""))
    && AllDigits(whole) && AllDigits(fractional)
    && |whole| + |fractional| > 0 && |fractional| <= k
  }

  /** The number of 10^-k units that whole.fractional denotes. */
  function Units(whole: string, fractional: string, k: nat): nat
    requires AllDigits(whole) && AllDigits(fractional) && |fractional| <= k
  {
    Number(whole) * Pow10(k) + Number(fractional) * Pow10(k - |fractional|)
  }

  lemma NormalizedIs(whole: string, fractional: string, k: nat)
    requires AllDigits(whole) && AllDigits(fractional) && |fractional| <= k
    ensures Normalized(whole, fractional, k) ==
            var v := Units(whole, fractional, k); if v < WORD then Ok(v) else Err(TooLarge)
  {
    var w := if whole == "" then "0" else whole;
    var pad := Zeros(k - |fractional|);
    NumberConcat(w, fractional);
    NumberConcat(w + fractional, pad);
    NumberOfZeros(k - |fractional|);
    Pow10Add(|fractional|, k - |fractional|);
    TrimZerosKeepsNumber(w + fractional + pad);
    assert Number("0") == 0;
    Distribute(Number(w), Pow10(|fractional|), Number(fractional), Pow10(k - |fractional|));
  }

  lemma {:induction false} SplitNone(s: string, sep: char)
    requires sep !in s
    ensures Split(s, sep) == [s]
  {
    if s != "" {
      assert s[0] in s && sep !in s[1..];
      SplitNone(s[1..], sep);
      assert [s[0]] + s[1..] == s;
    }
  }

  lemma {:induction false} SplitOnce(a: string, b: string, sep: char)
    requires sep !in a
    ensures Split(a + [sep] + b, sep) == [a] + Split(b, sep)
  {
    var s := a + [sep] + b;
    if a == "" {
      assert s[1..] == b;
    } else {
      assert a[0] in a && sep !in a[1..];
      assert s[1..] == a[1..] + [sep] + b;
      SplitOnce(a[1..], b, sep);
      assert [a[0]] + a[1..] == a;
    }
  }

  /** Joining the parts back. */
  lemma {:induction false} SplitJoin(s: string, sep: char)
    ensures |Split(s, sep)| == 1 ==> Split(s, sep)[0] == s
    ensures |Split(s, sep)| == 2 ==> s == Split(s, sep)[0] + [sep] + Split(s, sep)[1]
  {
    if s != "" {
      SplitJoin(s[1..], sep);
      var rest := Split(s[1..], sep);
      assert s == [s[0]] + s[1..];
      if s[0] == sep {
        assert Split(s, sep) == [""] + rest;
      } else {
        assert Split(s, sep) == [[s[0]] + rest[0]] + rest[1..];
        if |rest| == 2 {
          assert [s[0]] + (rest[0] + [sep] + rest[1]) == [s[0]] + rest[0] + [sep] + rest[1];
        }
      }
    }
  }

  lemma NoPoint(s: string)
    requires AllDigits(s)
    ensures '.' !in s
  {
  }

  lemma ShapeParses(raw: string, whole: string, fractional: string, k: nat)
    requires Shape(Trim(raw), whole, fractional, k)
    ensures ParseDecimalAmount(raw, k) ==
            var v := Units(whole, fractional, k); if v < WORD then Ok(v) else Err(TooLarge)
  {
    var t := Trim(raw);
    NoPoint(whole);
    NoPoint(fractional);
    NormalizedIs(whole, fractional, k);
    assert t[0] != '-' by {
      assert t[0] == '.' || IsDigit(t[0]);
    }
    if t == whole + "." + fractional {
      SplitOnce(whole, fractional, '.');
      SplitNone(fractional, '.');
    } else {
      SplitNone(t, '.');
    }
  }

  /** The parser accepts exactly the strings that, white space trimmed, have at most one point, at
      least one digit, nothing but digits besides, at most k places and a value below 2^256; and it
      returns that value. */
  lemma ParserAcceptsExactly(raw: string, k: nat, v: nat)
    ensures (v < WORD && ParseDecimalAmount(raw, k) == Ok(v)) <==>
            exists whole, fractional :: Shape(Trim(raw), whole, fractional, k) && Units(whole, fractional, k) == v && v < WORD
  {
    if v < WORD && ParseDecimalAmount(raw, k) == Ok(v) {
      var parts := Split(Trim(raw), '.');
      var whole, fractional := parts[0], if |parts| == 2 then parts[1] else "";
      SplitJoin(Trim(raw), '.');
      assert Shape(Trim(raw), whole, fractional, k);
      ShapeParses(raw, whole, fractional, k);
      assert Units(whole, fractional, k) == v;
    }
    forall whole, fractional | Shape(Trim(raw), whole, fractional, k) && Units(whole, fractional, k) == v && v < WORD
      ensures ParseDecimalAmount(raw, k) == Ok(v)
    {
      ShapeParses(raw, whole, fractional, k);
    }
  }

  // ---- The printer --------------------------------------------------------------------------

  function PadLeft(s: string, width: nat): string {
    if |s| < width then Zeros(width - |s|) + s else s
  }

  /** `None` is the panic of an overflowing 256-bit multiplication or power of ten. */
  function FormatScaledDecimal(value: U256, scale: U256, decimals: nat): Option<string> {
    if scale == 0 then Some("0")
    else if decimals == 0 then Some(Print(value / scale))
    else if Pow10(decimals) >= WORD || (value % scale) * Pow10(decimals) >= WORD then None
    else
      var fractional := MulDiv(value % scale, Pow10(decimals), scale);
      Some(Print(value / scale) + "." + PadLeft(Print(fractional), decimals))
  }

  /** When the printer prints, and the shape of what it prints: the whole part, and after a point exactly the
      asked number of places. */
  lemma PrinterPrintsIff(value: U256, scale: U256, decimals: nat)
    ensures FormatScaledDecimal(value, scale, decimals).Some? <==>
            scale == 0 || decimals == 0 || (Pow10(decimals) < WORD && (value % scale) * Pow10(decimals) < WORD)
    ensures FormatScaledDecimal(value, 0, decimals) == Some("0")
    ensures scale > 0 ==> FormatScaledDecimal(value, scale, 0) == Some(Print(value / scale))
    ensures scale > 0 && decimals > 0 && FormatScaledDecimal(value, scale, decimals).Some? ==>
              exists places :: |places| == decimals && AllDigits(places) &&
                FormatScaledDecimal(value, scale, decimals).value == Print(value / scale) + "." + places
  {
    if scale > 0 && decimals > 0 && FormatScaledDecimal(value, scale, decimals).Some? {
      ScaledFloor(value, scale, Pow10(decimals));
      var fraction := MulDiv(value % scale, Pow10(decimals), scale);
      PaddedPlaces(fraction, decimals);
      var places := PadLeft(Print(fraction), decimals);
      assert FormatScaledDecimal(value, scale, decimals).value == Print(value / scale) + "." + places;
    }
  }

  lemma PadKeepsNumber(digits: string, k: nat)
    requires AllDigits(digits) && |digits| <= k
    ensures var s := PadLeft(digits, k); AllDigits(s) && |s| == k && Number(s) == Number(digits)
  {
    if |digits| < k {
      var zeros := Zeros(k - |digits|);
      NumberOfZeros(k - |digits|);
      NumberConcat(zeros, digits);
      assert Number(zeros) * Pow10(|digits|) == 0;
    }
  }

  lemma PaddedPlaces(n: nat, k: nat)
    requires k > 0 && n < Pow10(k)
    ensures var s := PadLeft(Print(n), k); AllDigits(s) && |s| == k && Number(s) == n
  {
    PrintLength(n, k);
    NumberOfPrint(n);
    PadKeepsNumber(Print(n), k);
  }

  lemma DigitsKeepTrim(text: string)
    requires text != "" && IsDigit(text[0]) && IsDigit(text[|text| - 1])
    ensures Trim(text) == text
  {
    TrimIdle(text);
  }

  /** Whatever the printer prints, the parser reads back as floor(value * 10^k / scale); when that does
      not fit a word the parser says so. */
  lemma PrintThenParse(value: U256, scale: U256, k: nat)
    requires scale > 0 && FormatScaledDecimal(value, scale, k).Some?
    ensures ParseDecimalAmount(FormatScaledDecimal(value, scale, k).value, k) ==
            var x := MulDiv(value, Pow10(k), scale); if x < WORD then Ok(x) else Err(TooLarge)
  {
    var text := FormatScaledDecimal(value, scale, k).value;
    var whole := Print(value / scale);
    NumberOfPrint(value / scale);
    if k == 0 {
      DigitsKeepTrim(text);
      assert Shape(Trim(text), whole, "", 0);
      ShapeParses(text, whole, "", 0);
    } else {
      ScaledFloor(value, scale, Pow10(k));
      var f := MulDiv(value % scale, Pow10(k), scale);
      PaddedPlaces(f, k);
      var fractional := PadLeft(Print(f), k);
      DigitsKeepTrim(text);
      ShapeParses(text, whole, fractional, k);
      assert Units(whole, fractional, k) == (value / scale) * Pow10(k) + f * Pow10(0);
    }
  }

  /** At scale 10^k the round trip is the identity. */
  lemma PrintParseIdentity(value: U256, scale: U256, k: nat)
    requires scale == Pow10(k) && FormatScaledDecimal(value, scale, k).Some?
    ensures ParseDecimalAmount(FormatScaledDecimal(value, scale, k).value, k) == Ok(value)
  {
    PrintThenParse(value, scale, k);
    MulDivCancel(value, scale);
  }
}
