/** The number printer: fixed point, no exponent, no trailing fractional zero, never "-0". */
module PlainDecimal {
  import opened Options

  /** A Python Decimal: (-1)^negative * coefficient * 10^exponent, or not a finite number. */
  datatype Decimal =
    | Finite(negative: bool, coefficient: nat, exponent: int)
    | NaN
    | Infinity(negative: bool)

  // ---- Digits ----

  function Digit(d: nat): char
    requires d < 10
  {
    '0' + d as char
  }

  predicate IsDigit(c: char) {
    '0' <= c <= '9'
  }

  predicate AllDigits(s: string) {
    forall i :: 0 <= i < |s| ==> IsDigit(s[i])
  }

  /** A coefficient's decimal text. */
  function Digits(n: nat): (s: string)
    ensures s != []
  {
    if n < 10 then [Digit(n)] else Digits(n / 10) + [Digit(n % 10)]
  }

  function Zeros(n: nat): string {
    if n == 0 then [] else ['0'] + Zeros(n - 1)
  }

  function Value(s: string): nat
    requires AllDigits(s)
  {
    if s == [] then 0 else Value(s[..|s| - 1]) * 10 + (s[|s| - 1] - '0') as nat
  }

  // ---- format(value, "f") ----

  /** The digits before and after the point, with `k` of them after it. */
  function IntPart(digits: string, k: nat): string {
    var dot := |digits| - k;
    if dot <= 0 then "0" else digits[..dot]
  }

  function FracPart(digits: string, k: nat): string {
    var dot := |digits| - k;
    if dot < 0 then Zeros(-dot) + digits else digits[dot..]
  }

  function Pointed(whole: string, frac: string): string {
    if frac == [] then whole else whole + "." + frac
  }

  /** A zero with a positive exponent is first rescaled to exponent zero. */
  function Fixed(v: Decimal): string
    requires v.Finite?
  {
    var digits := Digits(v.coefficient);
    (if v.negative then "-" else "")
    + if v.exponent < 0 then Pointed(IntPart(digits, -v.exponent), FracPart(digits, -v.exponent))
      else if v.coefficient == 0 then "0"
      else digits + Zeros(v.exponent)
  }

  // ---- _plain_decimal ----

  function RStrip(s: string, c: char): string {
    if s != [] && s[|s| - 1] == c then RStrip(s[..|s| - 1], c) else s
  }

  function Trim(s: string): string {
    RStrip(RStrip(s, '0'), '.')
  }

  /** A zero is sent without a sign. */
  function Unsigned(s: string): string {
    if s == "-0" then "0" else s
  }

  /** None stands for the error a NaN or an infinity raises. */
  function Plain(v: Decimal): Option<string> {
    if !v.Finite? then None
    else
      var text := Fixed(v);
      Some(Unsigned(if '.' in text then Trim(text) else text))
  }

  // ---- What a text means ----

  function Find(s: string, c: char): (i: nat)
    ensures i <= |s| && (i < |s| ==> s[i] == c) && forall j :: 0 <= j < i ==> s[j] != c
  {
    if s == [] || s[0] == c then 0 else 1 + Find(s[1..], c)
  }

  function ReadUnsigned(s: string, negative: bool): Option<Decimal> {
    var dot := Find(s, '.');
    var whole, frac := s[..dot], if dot < |s| then s[dot + 1..] else "";
    if whole == [] || !AllDigits(whole) || !AllDigits(frac) || (dot < |s| && frac == []) then None
    else Some(Finite(negative, Value(whole + frac), -|frac|))
  }

  /** The reader of plain numbers: an optional sign, digits, and maybe a point and more digits. */
  function Read(s: string): Option<Decimal> {
    if s != [] && s[0] == '-' then ReadUnsigned(s[1..], true) else ReadUnsigned(s, false)
  }

  function Pow10(k: nat): (p: nat)
    ensures p > 0
  {
    if k == 0 then 1 else 10 * Pow10(k - 1)
  }

  /** How many times 10^base the number is. */
  function Amount(v: Decimal, base: int): int
    requires v.Finite? && base <= v.exponent
  {
    var n := v.coefficient * Pow10(v.exponent - base);
    if v.negative then -n else n
  }

  function Min(a: int, b: int): int {
    if a <= b then a else b
  }

  predicate SameValue(v: Decimal, w: Decimal)
    requires v.Finite? && w.Finite?
  {
    var base := Min(v.exponent, w.exponent);
    Amount(v, base) == Amount(w, base)
  }

  /** No exponent, no leading zero but a lone one, no trailing fractional zero, never "-0". */
  predicate Canonical(negative: bool, whole: string, frac: string) {
    && whole != [] && AllDigits(whole) && (whole == "0" || whole[0] != '0')
    && AllDigits(frac) && (frac != [] ==> frac[|frac| - 1] != '0')
    && !(negative && whole == "0" && frac == [])
  }

  ghost predicate IsCanonical(s: string) {
    exists negative, whole, frac ::
      Canonical(negative, whole, frac) && s == (if negative then "-" else "") + Pointed(whole, frac)
  }

  // ---- Digit lemmas ----

  lemma {:induction false} DigitsAreCanonical(n: nat)
    ensures AllDigits(Digits(n)) && Value(Digits(n)) == n
    ensures n > 0 ==> Digits(n)[0] != '0'
    ensures n < 10 <==> |Digits(n)| == 1
  {
    if n >= 10 {
      DigitsAreCanonical(n / 10);
      var s := Digits(n);
      assert s[..|s| - 1] == Digits(n / 10);
    } else {
      assert [Digit(n)][..0] == [];
    }
  }

  lemma AppendedParts(s: string, d: char, k: nat)
    requires s != [] && k > 0
    ensures IntPart(s + [d], k) == IntPart(s, k - 1)
    ensures FracPart(s + [d], k) == FracPart(s, k - 1) + [d]
  {
    var more := s + [d];
    var dot := |s| - (k - 1);
    assert |more| - k == dot;
    if dot >= 0 {
      assert more[dot..] == s[dot..] + [d];
      assert more[..dot] == s[..dot];
    } else {
      assert Zeros(-dot) + more == Zeros(-dot) + s + [d];
    }
  }

  lemma {:induction false} ZerosEnd(n: nat)
    requires n > 0
    ensures Zeros(n) == Zeros(n - 1) + ['0']
  {
    if n > 1 {
      ZerosEnd(n - 1);
    }
  }

  lemma SingleDigitParts(d: char, k: nat)
    requires k > 0
    ensures IntPart([d], k) == "0" && IntPart("0", k - 1) == "0"
    ensures FracPart([d], k) == FracPart("0", k - 1) + [d]
  {
    var one: string := [d];
    var zero: string := ['0'];
    assert |one| == 1 && |zero| == 1;
    if k == 1 {
      assert one[0..] == one && zero[1..] == [] && zero[..1] == zero;
      assert [] + one == one;
    } else if k == 2 {
      assert Zeros(0) == [] && Zeros(1) == zero && zero[0..] == zero;
    } else {
      ZerosEnd(k - 1);
    }
  }

  /** One more digit: both parts come from the number without its last digit. */
  lemma OneMoreDigit(m: nat, k: nat)
    requires k > 0
    ensures IntPart(Digits(m), k) == IntPart(Digits(m / 10), k - 1)
    ensures FracPart(Digits(m), k) == FracPart(Digits(m / 10), k - 1) + [Digit(m % 10)]
  {
    if m >= 10 {
      var s, d := Digits(m / 10), Digit(m % 10);
      assert Digits(m) == s + [d];
      AppendedParts(s, d, k);
    } else {
      assert m % 10 == m && m / 10 == 0;
      var d := Digit(m);
      assert Digits(m) == [d] && Digits(0) == "0";
      SingleDigitParts(d, k);
    }
  }

  lemma ValueOneMore(s: string, d: nat)
    requires AllDigits(s) && d < 10
    ensures AllDigits(s + [Digit(d)]) && Value(s + [Digit(d)]) == Value(s) * 10 + d
  {
    assert (s + [Digit(d)])[..|s|] == s;
  }

  /** A whole part, and a fraction of `k` digits, that together read as `m`. */
  predicate Reads(whole: string, frac: string, m: nat, k: nat) {
    && whole != [] && AllDigits(whole) && (whole == "0" || whole[0] != '0')
    && AllDigits(frac) && |frac| == k
    && AllDigits(whole + frac) && Value(whole + frac) == m
  }

  lemma ReadsOneMore(whole: string, frac: string, m: nat, k: nat, d: nat)
    requires Reads(whole, frac, m, k) && d < 10
    ensures Reads(whole, frac + [Digit(d)], m * 10 + d, k + 1)
  {
    ValueOneMore(whole + frac, d);
    ValueOneMore(frac, d);
    assert whole + (frac + [Digit(d)]) == whole + frac + [Digit(d)];
  }

  // ---- The parts of a number's text ----

  /** `whole` and `frac` are the digits of `m` before and after a point with `k` digits after it. */
  predicate Shows(m: nat, k: nat, whole: string, frac: string) {
    if k == 0 then whole == Digits(m) && frac == []
    else frac != [] && frac[|frac| - 1] == Digit(m % 10) && Shows(m / 10, k - 1, whole, frac[..|frac| - 1])
  }

  lemma ShowsOneMore(m: nat, k: nat, whole: string, rest: string)
    requires k > 0 && Shows(m / 10, k - 1, whole, rest)
    ensures Shows(m, k, whole, rest + [Digit(m % 10)])
  {
    var frac := rest + [Digit(m % 10)];
    assert frac[..|frac| - 1] == rest;
  }

  /** The slices of the coefficient's text are these parts. */
  lemma {:induction false} SlicesShow(m: nat, k: nat) returns (whole: string, frac: string)
    ensures whole == IntPart(Digits(m), k) && frac == FracPart(Digits(m), k)
    ensures Shows(m, k, whole, frac)
  {
    if k == 0 {
      whole, frac := Digits(m), [];
      WholeSlices(Digits(m));
    } else {
      var rest;
      whole, rest := SlicesShow(m / 10, k - 1);
      ShowsOneMore(m, k, whole, rest);
      OneMoreDigit(m, k);
      frac := rest + [Digit(m % 10)];
    }
  }

  lemma WholeSlices(s: string)
    requires s != []
    ensures IntPart(s, 0) == s && FracPart(s, 0) == []
  {
  }

  lemma LastDigit(s: string)
    requires s != []
    ensures s == s[..|s| - 1] + [s[|s| - 1]]
  {
  }

  lemma {:induction false} ShownReads(m: nat, k: nat, whole: string, frac: string)
    requires Shows(m, k, whole, frac)
    ensures Reads(whole, frac, m, k)
    decreases k
  {
    if k == 0 {
      DigitsAreCanonical(m);
      assert whole + [] == whole;
    } else {
      ShownReads(m / 10, k - 1, whole, frac[..|frac| - 1]);
      LastDigit(frac);
      ReadsOneMore(whole, frac[..|frac| - 1], m / 10, k - 1, m % 10);
    }
  }

  lemma {:induction false} ShownOnce(m: nat, k: nat, whole: string, frac: string, whole': string, frac': string)
    requires Shows(m, k, whole, frac) && Shows(m, k, whole', frac')
    ensures whole == whole' && frac == frac'
    decreases k
  {
    if k > 0 {
      ShownOnce(m / 10, k - 1, whole, frac[..|frac| - 1], whole', frac'[..|frac'| - 1]);
      LastDigit(frac);
      LastDigit(frac');
    }
  }

  // ---- The canonical form ----

  /** A number without trailing fractional zeros: `k` decimals, the last one not zero. */
  datatype Form = Form(m: nat, k: nat)

  function Strip(m: nat, k: nat): (f: Form)
    ensures f.k > 0 ==> f.m % 10 != 0
  {
    if k > 0 && m % 10 == 0 then Strip(m / 10, k - 1) else Form(m, k)
  }

  function FormOf(v: Decimal): (f: Form)
    requires v.Finite?
    ensures f.k > 0 ==> f.m % 10 != 0
  {
    if v.exponent < 0 then Strip(v.coefficient, -v.exponent)
    else Form(v.coefficient * Pow10(v.exponent), 0)
  }

  /** Dropping the zeros at the end of the fraction is stripping the number. */
  lemma {:induction false} StrippedShows(m: nat, k: nat, whole: string, frac: string)
    requires Shows(m, k, whole, frac)
    ensures Shows(Strip(m, k).m, Strip(m, k).k, whole, RStrip(frac, '0'))
    decreases k
  {
    if k > 0 && m % 10 == 0 {
      StrippedShows(m / 10, k - 1, whole, frac[..|frac| - 1]);
    }
  }

  // ---- Trimming a text ----

  lemma RStripOne(s: string, c: char)
    ensures c != '0' ==> RStrip(s + [c], '0') == s + [c]
    ensures RStrip(s + ['0'], '0') == RStrip(s, '0')
  {
    assert (s + ['0'])[..|s|] == s;
  }

  /** All the fraction was zeros: the point goes too. */
  lemma PointGoes(head: string)
    requires head != [] && head[|head| - 1] != '.'
    ensures Trim(head + ".") == head
  {
    RStripOne(head, '.');
    var text := head + ".";
    assert text == head + ['.'] && text[..|text| - 1] == head;
    assert RStrip(head, '.') == head;
    assert RStrip(text, '0') == text;
    assert RStrip(text, '.') == RStrip(head, '.');
  }

  lemma Append(head: string, s: string, d: char)
    ensures head + "." + (s + [d]) == head + "." + s + [d]
  {
  }

  /** What trimming does to a number's text: the zeros at the end of the fraction go. */
  lemma {:induction false} TrimPointed(head: string, frac: string)
    requires head != [] && head[|head| - 1] != '.' && '.' !in frac
    ensures Trim(head + "." + frac) == Pointed(head, RStrip(frac, '0'))
    decreases |frac|
  {
    if frac == [] {
      PointGoes(head);
      assert head + "." + [] == head + ".";
    } else {
      var rest, d := frac[..|frac| - 1], frac[|frac| - 1];
      LastDigit(frac);
      Append(head, rest, d);
      RStripOne(head + "." + rest, d);
      if d == '0' {
        TrimPointed(head, rest);
      }
    }
  }

  lemma Prefixed(prefix: string, whole: string, frac: string)
    ensures prefix + Pointed(whole, frac) == Pointed(prefix + whole, frac)
  {
  }

  lemma PointInside(head: string, frac: string)
    ensures '.' in head + "." + frac
  {
    assert (head + "." + frac)[|head|] == '.';
  }

  lemma PointedTrims(sign: string, whole: string, frac: string)
    requires whole != [] && AllDigits(whole) && frac != [] && AllDigits(frac)
    ensures '.' in sign + Pointed(whole, frac)
    ensures Trim(sign + Pointed(whole, frac)) == sign + Pointed(whole, RStrip(frac, '0'))
  {
    var head := sign + whole;
    assert head[|head| - 1] == whole[|whole| - 1];
    Prefixed(sign, whole, frac);
    Prefixed(sign, whole, RStrip(frac, '0'));
    TrimPointed(head, frac);
    PointInside(head, frac);
  }

  // ---- The printer, in terms of the form ----

  lemma {:induction false} ZerosAppended(m: nat, e: nat)
    requires m > 0
    ensures Digits(m) + Zeros(e) == Digits(m * Pow10(e))
    decreases e
  {
    if e == 0 {
      NothingAppended(Digits(m));
    } else {
      ZeroAppended(m);
      ZerosAppended(m * 10, e - 1);
      OneMoreZero(Digits(m), e);
      Regroup(m, Pow10(e - 1));
    }
  }

  lemma NothingAppended(s: string)
    ensures s + Zeros(0) == s
  {
  }

  lemma OneMoreZero(s: string, e: nat)
    requires e > 0
    ensures s + ['0'] + Zeros(e - 1) == s + Zeros(e)
  {
  }

  lemma ZeroAppended(m: nat)
    requires m > 0
    ensures Digits(m * 10) == Digits(m) + ['0']
  {
    assert (m * 10) / 10 == m && (m * 10) % 10 == 0;
  }

  lemma Regroup(m: nat, p: nat)
    ensures m * 10 * p == m * (10 * p)
  {
  }

  function Sign(negative: bool): string {
    if negative then "-" else ""
  }

  lemma NoPointInDigits(prefix: string, s: string)
    requires AllDigits(s) && '.' !in prefix
    ensures '.' !in prefix + s
  {
  }

  lemma FixedWhole(v: Decimal)
    requires v.Finite? && v.exponent >= 0
    ensures Fixed(v) == Sign(v.negative) + Digits(v.coefficient * Pow10(v.exponent))
  {
    if v.coefficient == 0 {
      assert 0 * Pow10(v.exponent) == 0;
    } else {
      ZerosAppended(v.coefficient, v.exponent);
    }
  }

  lemma PlainFrom(v: Decimal, text: string)
    requires v.Finite? && Fixed(v) == text
    ensures '.' in text ==> Plain(v) == Some(Unsigned(Trim(text)))
    ensures '.' !in text ==> Plain(v) == Some(Unsigned(text))
  {
  }

  lemma FixedFraction(v: Decimal) returns (whole: string, frac: string)
    requires v.Finite? && v.exponent < 0
    ensures Shows(v.coefficient, -v.exponent, whole, frac)
    ensures Fixed(v) == Sign(v.negative) + Pointed(whole, frac)
  {
    whole, frac := SlicesShow(v.coefficient, -v.exponent);
    FixedSliced(v, whole, frac);
  }

  lemma FixedSliced(v: Decimal, whole: string, frac: string)
    requires v.Finite? && v.exponent < 0
    requires whole == IntPart(Digits(v.coefficient), -v.exponent)
    requires frac == FracPart(Digits(v.coefficient), -v.exponent)
    ensures Fixed(v) == Sign(v.negative) + Pointed(whole, frac)
  {
  }

  lemma FractionShows(v: Decimal) returns (whole: string, frac: string)
    requires v.Finite? && v.exponent < 0
    ensures Shows(FormOf(v).m, FormOf(v).k, whole, frac)
    ensures Plain(v) == Some(Unsigned(Sign(v.negative) + Pointed(whole, frac)))
  {
    var long;
    whole, long := FixedFraction(v);
    ShownReads(v.coefficient, -v.exponent, whole, long);
    StrippedShows(v.coefficient, -v.exponent, whole, long);
    PointedTrims(Sign(v.negative), whole, long);
    PlainFrom(v, Sign(v.negative) + Pointed(whole, long));
    frac := RStrip(long, '0');
  }

  lemma WholeShows(v: Decimal) returns (whole: string)
    requires v.Finite? && v.exponent >= 0
    ensures Shows(FormOf(v).m, FormOf(v).k, whole, [])
    ensures Plain(v) == Some(Unsigned(Sign(v.negative) + Pointed(whole, [])))
  {
    whole := Digits(v.coefficient * Pow10(v.exponent));
    DigitsAreCanonical(v.coefficient * Pow10(v.exponent));
    FixedWhole(v);
    NoPointInDigits(Sign(v.negative), whole);
    PlainFrom(v, Sign(v.negative) + whole);
  }

  /** What is printed is the sign and the parts of the form, apart from "-0". */
  lemma PlainShows(v: Decimal) returns (whole: string, frac: string)
    requires v.Finite?
    ensures Shows(FormOf(v).m, FormOf(v).k, whole, frac)
    ensures Plain(v) == Some(Unsigned(Sign(v.negative) + Pointed(whole, frac)))
  {
    if v.exponent < 0 {
      whole, frac := FractionShows(v);
    } else {
      whole := WholeShows(v);
      frac := [];
    }
  }

  // ---- Reading back ----

  lemma {:induction false} FindFirst(s: string, rest: string, c: char)
    requires c !in s
    ensures Find(s + [c] + rest, c) == |s|
    decreases |s|
  {
    if s != [] {
      assert (s + [c] + rest)[1..] == s[1..] + [c] + rest;
      FindFirst(s[1..], rest, c);
    }
  }

  lemma {:induction false} FindNone(s: string, c: char)
    requires c !in s
    ensures Find(s, c) == |s|
  {
    if s != [] {
      FindNone(s[1..], c);
    }
  }

  lemma PointedReads(whole: string, frac: string, m: nat, k: nat, negative: bool)
    requires Reads(whole, frac, m, k)
    ensures ReadUnsigned(Pointed(whole, frac), negative) == Some(Finite(negative, m, -(k as int)))
  {
    assert '.' !in whole;
    if frac == [] {
      FindNone(whole, '.');
      assert whole[..|whole|] == whole;
    } else {
      FindFirst(whole, frac, '.');
      var s := Pointed(whole, frac);
      assert s == whole + ['.'] + frac;
      assert s[..|whole|] == whole && s[|whole| + 1..] == frac;
    }
  }

  lemma SignReads(negative: bool, s: string)
    requires s != [] && s[0] != '-'
    ensures Read(Sign(negative) + s) == ReadUnsigned(s, negative)
  {
    assert ("-" + s)[1..] == s;
    assert "" + s == s;
  }

  lemma PointedHead(whole: string, frac: string)
    requires whole != []
    ensures Pointed(whole, frac) != [] && Pointed(whole, frac)[0] == whole[0]
  {
  }

  lemma TextReads(whole: string, frac: string, m: nat, k: nat, negative: bool)
    requires Reads(whole, frac, m, k)
    ensures Read(Sign(negative) + Pointed(whole, frac)) == Some(Finite(negative, m, -(k as int)))
  {
    PointedReads(whole, frac, m, k, negative);
    PointedHead(whole, frac);
    assert IsDigit(whole[0]);
    SignReads(negative, Pointed(whole, frac));
  }

  /** The number as printed: zero has no sign. */
  function PrintedAs(negative: bool, f: Form): Decimal {
    Finite(negative && f != Form(0, 0), f.m, -(f.k as int))
  }

  function Printed(v: Decimal): Decimal
    requires v.Finite?
  {
    PrintedAs(v.negative, FormOf(v))
  }

  /** Only the form of zero is "0". */
  lemma OnlyZeroIsZero(m: nat, k: nat, whole: string, frac: string)
    requires Reads(whole, frac, m, k)
    ensures Pointed(whole, frac) == "0" <==> m == 0 && k == 0
  {
    if m == 0 && k == 0 {
      assert whole + frac == whole;
      LeadingDigit(whole);
    }
    if whole == "0" && frac == [] {
      assert whole + frac == "0" && Value("0") == 0;
    }
  }

  lemma {:induction false} LeadingDigit(s: string)
    requires s != [] && AllDigits(s) && Value(s) == 0
    ensures s[0] == '0'
  {
    if |s| > 1 {
      LeadingDigit(s[..|s| - 1]);
    }
  }

  lemma SignDropped(negative: bool, s: string)
    requires s != [] && s[0] != '-'
    ensures Unsigned(Sign(negative) + s) == Sign(negative && s != "0") + s
  {
    assert "-" + "0" == "-0" && "" + s == s;
    assert Sign(true) + s == "-0" ==> (Sign(true) + s)[1..] == s;
  }

  /** What is printed: the sign of the number as printed, and the parts of its form. */
  lemma PlainIsPrinted(v: Decimal) returns (whole: string, frac: string)
    requires v.Finite?
    ensures Shows(FormOf(v).m, FormOf(v).k, whole, frac) && Reads(whole, frac, FormOf(v).m, FormOf(v).k)
    ensures Plain(v) == Some(Sign(Printed(v).negative) + Pointed(whole, frac))
  {
    whole, frac := PlainShows(v);
    var f := FormOf(v);
    ShownReads(f.m, f.k, whole, frac);
    PointedHead(whole, frac);
    assert IsDigit(whole[0]);
    OnlyZeroIsZero(f.m, f.k, whole, frac);
    SignDropped(v.negative, Pointed(whole, frac));
  }

  /** Every finite number is printed, and nothing else is. */
  lemma OnlyFiniteIsPrinted(v: Decimal)
    ensures Plain(v).Some? <==> v.Finite?
  {
  }

  lemma PlainReads(v: Decimal) returns (text: string)
    requires v.Finite?
    ensures Plain(v) == Some(text) && Read(text) == Some(Printed(v))
  {
    var whole, frac := PlainIsPrinted(v);
    text := PartsPrinted(whole, frac, FormOf(v).m, FormOf(v).k, Printed(v));
  }

  lemma PartsPrinted(whole: string, frac: string, m: nat, k: nat, p: Decimal) returns (text: string)
    requires Reads(whole, frac, m, k) && p.Finite? && p == Finite(p.negative, m, -(k as int))
    ensures text == Sign(p.negative) + Pointed(whole, frac) && Read(text) == Some(p)
  {
    text := Sign(p.negative) + Pointed(whole, frac);
    TextReads(whole, frac, m, k, p.negative);
  }

  // ---- Values ----

  lemma {:induction false} Pow10Add(a: nat, b: nat)
    ensures Pow10(a + b) == Pow10(a) * Pow10(b)
  {
    if a > 0 {
      Pow10Add(a - 1, b);
    }
  }

  lemma Scale(n: int, p: int, q: int, r: int)
    requires r == p * q
    ensures n * r == n * p * q
  {
  }

  lemma Cancel(x: int, y: int, p: int)
    requires p > 0 && x * p == y * p
    ensures x == y
  {
  }

  lemma Rebase(v: Decimal, low: int, base: int)
    requires v.Finite? && low <= base <= v.exponent
    ensures Amount(v, low) == Amount(v, base) * Pow10(base - low)
  {
    var p, q := Pow10(v.exponent - base), Pow10(base - low);
    Pow10Add(v.exponent - base, base - low);
    assert v.exponent - base + (base - low) == v.exponent - low;
    Scale(v.coefficient, p, q, Pow10(v.exponent - low));
    Negated(v.coefficient * p, q);
  }

  lemma Negated(x: int, q: int)
    ensures (-x) * q == -(x * q)
  {
  }

  /** Two numbers can be compared at any base below both. */
  lemma SameAt(v: Decimal, w: Decimal, base: int)
    requires v.Finite? && w.Finite? && base <= v.exponent && base <= w.exponent
    ensures SameValue(v, w) <==> Amount(v, base) == Amount(w, base)
  {
    var top := Min(v.exponent, w.exponent);
    Rebase(v, base, top);
    Rebase(w, base, top);
    if Amount(v, base) == Amount(w, base) {
      Cancel(Amount(v, top), Amount(w, top), Pow10(top - base));
    }
  }

  lemma SameTransitive(u: Decimal, v: Decimal, w: Decimal)
    requires u.Finite? && v.Finite? && w.Finite? && SameValue(u, v) && SameValue(v, w)
    ensures SameValue(u, w) && SameValue(w, u)
  {
    var base := Min(u.exponent, Min(v.exponent, w.exponent));
    SameAt(u, v, base);
    SameAt(v, w, base);
    SameAt(u, w, base);
    SameAt(w, u, base);
  }

  lemma {:induction false} StripKeepsValue(m: nat, k: nat)
    ensures Strip(m, k).k <= k && m == Strip(m, k).m * Pow10(k - Strip(m, k).k)
  {
    if k > 0 && m % 10 == 0 {
      StripKeepsValue(m / 10, k - 1);
      var f := Strip(m / 10, k - 1);
      Regroup(f.m, Pow10(k - 1 - f.k));
      assert m == 10 * (m / 10);
      TenTimes(f.m, Pow10(k - 1 - f.k));
    }
  }

  lemma TenTimes(x: nat, p: nat)
    ensures 10 * (x * p) == x * (10 * p)
  {
  }

  lemma FormKeepsValue(v: Decimal)
    requires v.Finite?
    ensures
      var f := FormOf(v);
      var base := Min(v.exponent, 0);
      -(f.k as int) >= base && v.coefficient * Pow10(v.exponent - base) == f.m * Pow10(-(f.k as int) - base)
  {
    if v.exponent < 0 {
      StripKeepsValue(v.coefficient, -v.exponent);
    }
  }

  lemma PrintedKeepsValue(v: Decimal)
    requires v.Finite?
    ensures SameValue(v, Printed(v)) && SameValue(Printed(v), v)
  {
    var f, base := FormOf(v), Min(v.exponent, 0);
    FormKeepsValue(v);
    ZeroForm(f);
    assert Amount(v, base) == Amount(Printed(v), base);
    SameAt(v, Printed(v), base);
    SameAt(Printed(v), v, base);
  }

  lemma ZeroForm(f: Form)
    ensures f == Form(0, 0) ==> forall p: nat :: f.m * p == 0
  {
  }

  /** No two forms have the same value. */
  lemma FormsDiffer(f: Form, g: Form)
    requires (f.k > 0 ==> f.m % 10 != 0) && (g.k > 0 ==> g.m % 10 != 0) && f.k <= g.k
    requires f.m * Pow10(g.k - f.k) == g.m
    ensures f == g
  {
    if f.k < g.k {
      MultipleOfTen(f.m, g.k - f.k);
    }
  }

  lemma MultipleOfTen(m: nat, d: nat)
    requires d > 0
    ensures (m * Pow10(d)) % 10 == 0
  {
    TenTimes(m, Pow10(d - 1));
  }

  lemma PrintedIsUnique(v: Decimal, w: Decimal)
    requires v.Finite? && w.Finite? && SameValue(Printed(v), Printed(w))
    ensures Printed(v) == Printed(w)
  {
    var f, g := FormOf(v), FormOf(w);
    var base := Min(-(f.k as int), -(g.k as int));
    var p, q := Pow10(-(f.k as int) - base), Pow10(-(g.k as int) - base);
    SignOfAmount(Printed(v), base);
    SignOfAmount(Printed(w), base);
    assert f.m * p == g.m * q;
    if f.k <= g.k {
      assert q == 1;
      FormsDiffer(f, g);
    } else {
      assert p == 1;
      FormsDiffer(g, f);
    }
  }

  lemma SignOfAmount(v: Decimal, base: int)
    requires v.Finite? && base <= v.exponent
    ensures v.coefficient > 0 ==> (Amount(v, base) < 0 <==> v.negative) && Amount(v, base) != 0
    ensures v.coefficient == 0 ==> Amount(v, base) == 0
    ensures var n := v.coefficient * Pow10(v.exponent - base); n >= 0 && (Amount(v, base) == n || Amount(v, base) == -n)
  {
    Positive(v.coefficient, Pow10(v.exponent - base));
  }

  lemma Positive(x: nat, p: nat)
    requires p > 0
    ensures x * p >= 0 && (x > 0 ==> x * p > 0) && (x == 0 ==> x * p == 0)
  {
  }

  // ---- The promises ----

  /** The text is in canonical form, and reads back as the same value. */
  lemma PlainRoundTrip(v: Decimal) returns (text: string)
    requires v.Finite?
    ensures Plain(v) == Some(text) && IsCanonical(text)
    ensures Read(text).Some? && Read(text).value.Finite? && SameValue(Read(text).value, v)
  {
    text := PlainReads(v);
    PlainIsCanonical(v);
    PrintedKeepsValue(v);
  }

  lemma PlainIsCanonical(v: Decimal)
    requires v.Finite?
    ensures Plain(v).Some? && IsCanonical(Plain(v).value)
  {
    var whole, frac := PlainIsPrinted(v);
    LastDecimal(FormOf(v).m, FormOf(v).k, whole, frac);
    PartsAreCanonical(Printed(v).negative, whole, frac, FormOf(v).m, FormOf(v).k);
  }

  lemma LastDecimal(m: nat, k: nat, whole: string, frac: string)
    requires Shows(m, k, whole, frac) && (k > 0 ==> m % 10 != 0)
    ensures k > 0 ==> frac != [] && frac[|frac| - 1] != '0'
  {
  }

  lemma PartsAreCanonical(negative: bool, whole: string, frac: string, m: nat, k: nat)
    requires Reads(whole, frac, m, k) && !(negative && m == 0 && k == 0)
    requires k > 0 ==> frac[|frac| - 1] != '0'
    ensures IsCanonical(Sign(negative) + Pointed(whole, frac))
  {
    if whole == "0" && frac == [] {
      assert whole + frac == "0" && Value("0") == 0;
    }
    assert Canonical(negative, whole, frac);
  }

  lemma SameValuePrintsAlike(v: Decimal, w: Decimal)
    requires v.Finite? && w.Finite? && SameValue(v, w)
    ensures Printed(v) == Printed(w)
  {
    PrintedKeepsValue(v);
    PrintedKeepsValue(w);
    SameTransitive(Printed(v), v, w);
    SameTransitive(Printed(v), w, Printed(w));
    PrintedIsUnique(v, w);
  }

  lemma PrintedAlikeIsSameValue(v: Decimal, w: Decimal)
    requires v.Finite? && w.Finite? && Printed(v) == Printed(w)
    ensures SameValue(v, w)
  {
    PrintedKeepsValue(v);
    PrintedKeepsValue(w);
    SameTransitive(v, Printed(v), w);
  }

  lemma PrintedAlikeIsSameText(v: Decimal, w: Decimal)
    requires v.Finite? && w.Finite? && Printed(v) == Printed(w)
    ensures Plain(v) == Plain(w)
  {
    var whole, frac := PlainIsPrinted(v);
    var whole', frac' := PlainIsPrinted(w);
    ShownOnce(FormOf(v).m, FormOf(v).k, whole, frac, whole', frac');
  }

  /** Equal values, and only they, print alike. */
  lemma SameTextIffSameValue(v: Decimal, w: Decimal)
    requires v.Finite? && w.Finite?
    ensures Plain(v) == Plain(w) <==> SameValue(v, w)
  {
    if SameValue(v, w) {
      SameValuePrintsAlike(v, w);
      PrintedAlikeIsSameText(v, w);
    }
    if Plain(v) == Plain(w) {
      var text := PlainReads(v);
      var same := PlainReads(w);
      PrintedAlikeIsSameValue(v, w);
    }
  }
}
