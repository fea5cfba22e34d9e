/** Small shared vocabulary: an Option type, ASCII string helpers with the
    JavaScript and Python meanings the application relies on, and sums. */
module Common {

  datatype Option<T> = None | Some(value: T)

  /** A JavaScript number as the application can produce it: a finite value or NaN.
      Arithmetic on NaN gives NaN and every comparison with it is false. */
  datatype Number = Num(v: real) | NaN
  {
    function Plus(b: Number): (r: Number)
      ensures r.Num? <==> this.Num? && b.Num?
      ensures r.Num? ==> r.v == this.v + b.v
    {
      if this.Num? && b.Num? then Num(this.v + b.v) else NaN
    }

    function Minus(b: Number): (r: Number)
      ensures r.Num? <==> this.Num? && b.Num?
      ensures r.Num? ==> r.v == this.v - b.v
    {
      if this.Num? && b.Num? then Num(this.v - b.v) else NaN
    }

    function Times(b: Number): (r: Number)
      ensures r.Num? <==> this.Num? && b.Num?
      ensures r.Num? ==> r.v == this.v * b.v
    {
      if this.Num? && b.Num? then Num(this.v * b.v) else NaN
    }

    /** Division by a number known to be positive (every division the model performs). */
    function Over(b: Number): (r: Number)
      requires b.Num? ==> b.v > 0.0
      ensures r.Num? <==> this.Num? && b.Num?
      ensures r.Num? ==> r.v * b.v == this.v
    {
      if this.Num? && b.Num? then Num(this.v / b.v) else NaN
    }

    /** `a > b`: false whenever either side is NaN. */
    predicate Above(b: Number)
    {
      this.Num? && b.Num? && this.v > b.v
    }

    /** Truthiness: NaN and 0 are falsy. */
    predicate Truthy()
    {
      this.Num? && this.v != 0.0
    }

    /** `a || d`. */
    function Or(d: Number): (r: Number)
      ensures this.Truthy() ==> r == this
      ensures !this.Truthy() ==> r == d
    {
      if this.Truthy() then this else d
    }

    /** `Math.min(a, b)`: NaN when either side is NaN. */
    function Min(b: Number): (r: Number)
      ensures r.Num? <==> this.Num? && b.Num?
      ensures r.Num? ==> r.v <= this.v && r.v <= b.v && (r.v == this.v || r.v == b.v)
    {
      if this.Num? && b.Num? then Num(if this.v <= b.v then this.v else b.v) else NaN
    }
  }

  /** JavaScript's `x || d` on strings: the empty string is falsy. */
  function OrElse(s: string, d: string): (r: string)
    ensures s != "" ==> r == s
    ensures s == "" ==> r == d
  {
    if s == "" then d else s
  }

  /** JavaScript's `data || []` on a list that may be missing: a missing list is empty. */
  function OrEmpty<T>(data: Option<seq<T>>): (r: seq<T>)
    ensures data.Some? ==> r == data.value
    ensures data.None? ==> r == []
  {
    if data.Some? then data.value else []
  }

  // ---------------------------------------------------------------------------
  // Characters

  predicate IsDigit(c: char) { '0' <= c <= '9' }

  /** A character of a regular-expression word (`\w`), ASCII only. */
  predicate IsWordChar(c: char)
  {
    IsDigit(c) || ('a' <= c <= 'z') || ('A' <= c <= 'Z') || c == '_'
  }

  /** JavaScript's `String.prototype.trim` whitespace, restricted to ASCII:
      space, tab, line feed, vertical tab, form feed, carriage return. */
  predicate IsJsSpace(c: char) { c == ' ' || ('\t' <= c <= '\r') }

  function DigitValue(c: char): (d: nat)
    requires IsDigit(c)
    ensures d < 10
  {
    (c as int) - ('0' as int)
  }

  function DigitChar(d: nat): (c: char)
    requires d < 10
    ensures IsDigit(c) && DigitValue(c) == d
  {
    (('0' as int) + d) as char
  }

  predicate AllDigits(s: string) { forall i :: 0 <= i < |s| ==> IsDigit(s[i]) }

  // ---------------------------------------------------------------------------
  // Decimal numbers

  /** The value of a string of decimal digits, most significant first. */
  function DecimalValue(s: string): nat
    requires AllDigits(s)
  {
    if s == [] then 0 else 10 * DecimalValue(s[..|s| - 1]) + DigitValue(s[|s| - 1])
  }

  /** The shortest decimal spelling of `n`, as JavaScript's template strings print it. */
  function NatToString(n: nat): (s: string)
    ensures |s| > 0 && AllDigits(s)
    ensures |s| > 1 ==> s[0] != '0'
    decreases n
  {
    if n < 10 then [DigitChar(n)] else NatToString(n / 10) + [DigitChar(n % 10)]
  }

  lemma {:induction false} DecimalOfNatToString(n: nat)
    ensures DecimalValue(NatToString(n)) == n
    decreases n
  {
    if n >= 10 {
      var s := NatToString(n);
      assert s[..|s| - 1] == NatToString(n / 10);
      DecimalOfNatToString(n / 10);
    }
  }

  // ---------------------------------------------------------------------------
  // Amounts written with thousands separators

  predicate IsDigitOrComma(c: char) { IsDigit(c) || c == ',' }

  /** `s.replace(/,/g, '')`. */
  function StripCommas(s: string): (r: string)
    ensures |r| <= |s|
    ensures forall k :: 0 <= k < |r| ==> r[k] != ','
    ensures (forall k :: 0 <= k < |s| ==> IsDigitOrComma(s[k])) ==> AllDigits(r)
    ensures (forall k :: 0 <= k < |s| ==> s[k] != ',') ==> r == s
    ensures r == [] <==> forall k :: 0 <= k < |s| ==> s[k] == ','
  {
    if s == [] then []
    else (if s[0] == ',' then [] else [s[0]]) + StripCommas(s[1..])
  }

  /** `parseInt(digits, 10)` on a string of decimal digits: NaN when it is empty. */
  function ParseDigits(digits: string): (r: Number)
    requires AllDigits(digits)
    ensures r.NaN? <==> digits == []
    ensures r.Num? ==> r.v == DecimalValue(digits) as real
  {
    if digits == [] then NaN else Num(DecimalValue(digits) as real)
  }

  // ---------------------------------------------------------------------------
  // Runs of characters, as a regular expression `[...]+` finds them

  /** The first index at or after `i` whose character satisfies `p`. */
  function NextMatch(s: string, i: nat, p: char -> bool): (r: Option<nat>)
    ensures r.Some? ==> i <= r.value < |s| && p(s[r.value])
    ensures r.Some? ==> forall k :: i <= k < r.value ==> !p(s[k])
    ensures r.None? ==> forall k :: i <= k < |s| ==> !p(s[k])
    decreases |s| - i
  {
    if i >= |s| then None
    else if p(s[i]) then Some(i)
    else NextMatch(s, i + 1, p)
  }

  /** The end of the longest run of `p`-characters that starts at `i`. */
  function RunEnd(s: string, i: nat, p: char -> bool): (j: nat)
    requires i <= |s|
    ensures i <= j <= |s|
    ensures forall k :: i <= k < j ==> p(s[k])
    ensures j == |s| || !p(s[j])
    decreases |s| - i
  {
    if i < |s| && p(s[i]) then RunEnd(s, i + 1, p) else i
  }

  /** The leftmost longest run, as a non-global `match` returns it; `None` when no
      character satisfies `p`. */
  function FirstRun(s: string, p: char -> bool): (r: Option<string>)
    ensures r.Some? ==> |r.value| > 0 && forall k :: 0 <= k < |r.value| ==> p(r.value[k])
    ensures r.None? <==> forall k :: 0 <= k < |s| ==> !p(s[k])
  {
    match NextMatch(s, 0, p)
    case None => None
    case Some(a) => Some(s[a..RunEnd(s, a, p)])
  }

  /** Every maximal run from `i` on, in order, as a global `match` returns them. */
  function Runs(s: string, i: nat, p: char -> bool): (rs: seq<string>)
    ensures forall j :: 0 <= j < |rs| ==> |rs[j]| > 0
    decreases |s| - i
  {
    match NextMatch(s, i, p)
    case None => []
    case Some(a) => [s[a..RunEnd(s, a, p)]] + Runs(s, RunEnd(s, a, p), p)
  }

  /** Every run is made of `p`-characters only. */
  lemma {:induction false} RunsSatisfy(s: string, i: nat, p: char -> bool)
    ensures forall j, k :: 0 <= j < |Runs(s, i, p)| && 0 <= k < |Runs(s, i, p)[j]| ==> p(Runs(s, i, p)[j][k])
    decreases |s| - i
  {
    match NextMatch(s, i, p)
    case None =>
    case Some(a) =>
      RunsSatisfy(s, RunEnd(s, a, p), p);
  }

  /** From `i` on, when `s[i..a]` holds no `p`-character and `s[a..b]` is a maximal run,
      the runs are that run and then the runs from `b` on. */
  lemma RunsAt(s: string, i: nat, a: nat, b: nat, p: char -> bool)
    requires i <= a < b <= |s|
    requires forall k :: i <= k < a ==> !p(s[k])
    requires forall k :: a <= k < b ==> p(s[k])
    requires b == |s| || !p(s[b])
    ensures Runs(s, i, p) == [s[a..b]] + Runs(s, b, p)
  {
    assert NextMatch(s, i, p) == Some(a) by {
      NextMatchIs(s, i, a, p);
    }
    RunEndIs(s, a, b, p);
  }

  lemma {:induction false} NextMatchIs(s: string, i: nat, a: nat, p: char -> bool)
    requires i <= a < |s| && p(s[a])
    requires forall k :: i <= k < a ==> !p(s[k])
    ensures NextMatch(s, i, p) == Some(a)
    decreases a - i
  {
    if i < a {
      NextMatchIs(s, i + 1, a, p);
    }
  }

  lemma {:induction false} RunEndIs(s: string, a: nat, b: nat, p: char -> bool)
    requires a <= b <= |s|
    requires forall k :: a <= k < b ==> p(s[k])
    requires b == |s| || !p(s[b])
    ensures RunEnd(s, a, p) == b
    decreases b - a
  {
    if a < b {
      RunEndIs(s, a + 1, b, p);
    }
  }

  /** Searching in `x + y` past `x` is searching in `y`. */
  lemma {:induction false} NextMatchShift(x: string, y: string, i: nat, p: char -> bool)
    ensures NextMatch(x + y, |x| + i, p) ==
            (match NextMatch(y, i, p) case None => None case Some(a) => Some(|x| + a))
    decreases |y| - i
  {
    if i < |y| {
      assert (x + y)[|x| + i] == y[i];
      if !p(y[i]) {
        NextMatchShift(x, y, i + 1, p);
      }
    }
  }

  lemma {:induction false} RunEndShift(x: string, y: string, a: nat, p: char -> bool)
    requires a <= |y|
    ensures RunEnd(x + y, |x| + a, p) == |x| + RunEnd(y, a, p)
    decreases |y| - a
  {
    if a < |y| {
      assert (x + y)[|x| + a] == y[a];
      if p(y[a]) {
        RunEndShift(x, y, a + 1, p);
      }
    }
  }

  /** The runs of `x + y` past `x` are the runs of `y`. */
  lemma {:induction false} RunsShift(x: string, y: string, i: nat, p: char -> bool)
    ensures Runs(x + y, |x| + i, p) == Runs(y, i, p)
    decreases |y| - i
  {
    var s := x + y;
    NextMatchShift(x, y, i, p);
    match NextMatch(y, i, p)
    case None =>
      RunsNoneAt(s, |x| + i, p);
      RunsNoneAt(y, i, p);
    case Some(a) =>
      var e := RunEnd(y, a, p);
      RunEndShift(x, y, a, p);
      RunsFirstAt(s, |x| + i, |x| + a, p);
      RunsFirstAt(y, i, a, p);
      SliceShift(x, y, a, e);
      RunsShift(x, y, e, p);
      var head := y[a..e];
      var tail := Runs(y, e, p);
      assert Runs(y, i, p) == [head] + tail;
      assert Runs(s, |x| + i, p) == [head] + tail;
  }

  lemma SliceShift(x: string, y: string, a: nat, e: nat)
    requires a <= e <= |y|
    ensures (x + y)[|x| + a..|x| + e] == y[a..e]
  {
  }

  lemma RunsNoneAt(s: string, i: nat, p: char -> bool)
    requires NextMatch(s, i, p).None?
    ensures Runs(s, i, p) == []
  {
  }

  lemma RunsFirstAt(s: string, i: nat, a: nat, p: char -> bool)
    requires NextMatch(s, i, p) == Some(a)
    ensures Runs(s, i, p) == [s[a..RunEnd(s, a, p)]] + Runs(s, RunEnd(s, a, p), p)
  {
  }

  /** A prefix without `p`-characters adds no runs. */
  lemma RunsSkip(pre: string, y: string, p: char -> bool)
    requires forall k :: 0 <= k < |pre| ==> !p(pre[k])
    ensures Runs(pre + y, 0, p) == Runs(y, 0, p)
  {
    NextMatchShift(pre, y, 0, p);
    NextMatchSkip(pre, y, 0, p);
    RunsShift(pre, y, 0, p);
  }

  lemma {:induction false} NextMatchSkip(pre: string, y: string, i: nat, p: char -> bool)
    requires i <= |pre|
    requires forall k :: 0 <= k < |pre| ==> !p(pre[k])
    ensures NextMatch(pre + y, i, p) == NextMatch(pre + y, |pre|, p)
    decreases |pre| - i
  {
    if i < |pre| {
      assert (pre + y)[i] == pre[i];
      NextMatchSkip(pre, y, i + 1, p);
    }
  }

  /** A leading maximal run is the first run, and the runs of the rest follow. */
  lemma RunsOfLeading(run: string, rest: string, p: char -> bool)
    requires |run| > 0 && forall k :: 0 <= k < |run| ==> p(run[k])
    requires rest == [] || !p(rest[0])
    ensures Runs(run + rest, 0, p) == [run] + Runs(rest, 0, p)
  {
    var s := run + rest;
    assert s[0] == run[0];
    forall k | 0 <= k < |run| ensures p(s[k]) {
      assert s[k] == run[k];
    }
    if rest != [] {
      assert s[|run|] == rest[0];
    }
    RunEndIs(s, 0, |run|, p);
    assert s[0..|run|] == run;
    RunsShift(run, rest, 0, p);
  }

  /** A string that starts with a maximal run after a run-free prefix: that run comes
      first, then the runs of what follows it. */
  lemma RunsOfPrefixed(pre: string, run: string, rest: string, p: char -> bool)
    requires forall k :: 0 <= k < |pre| ==> !p(pre[k])
    requires |run| > 0 && forall k :: 0 <= k < |run| ==> p(run[k])
    requires rest == [] || !p(rest[0])
    ensures Runs(pre + run + rest, 0, p) == [run] + Runs(rest, 0, p)
  {
    assert pre + run + rest == pre + (run + rest);
    RunsSkip(pre, run + rest, p);
    RunsOfLeading(run, rest, p);
  }

  /** No run starts where no `p`-character follows. */
  lemma RunsNone(s: string, i: nat, p: char -> bool)
    requires forall k :: i <= k < |s| ==> !p(s[k])
    ensures Runs(s, i, p) == []
  {
  }

  /** The non-global match is the first of the global matches. */
  lemma FirstRunIsFirstOfRuns(s: string, p: char -> bool)
    ensures FirstRun(s, p).None? <==> Runs(s, 0, p) == []
    ensures FirstRun(s, p).Some? ==> FirstRun(s, p).value == Runs(s, 0, p)[0]
  {
  }

  /** When `s` is a run-free prefix, then a run, then a character that ends it, the first
      run is that run. */
  lemma FirstRunAfterPrefix(pre: string, run: string, rest: string, p: char -> bool)
    requires forall k :: 0 <= k < |pre| ==> !p(pre[k])
    requires |run| > 0 && forall k :: 0 <= k < |run| ==> p(run[k])
    requires rest == [] || !p(rest[0])
    ensures FirstRun(pre + run + rest, p) == Some(run)
  {
    var s := pre + run + rest;
    assert s[|pre|] == run[0];
    forall k | 0 <= k < |pre| ensures !p(s[k]) {
      assert s[k] == pre[k];
    }
    assert NextMatch(s, 0, p) == Some(|pre|);
    forall k | |pre| <= k < |pre| + |run| ensures p(s[k]) {
      assert s[k] == run[k - |pre|];
    }
    if rest != [] {
      assert s[|pre| + |run|] == rest[0];
    }
    assert RunEnd(s, |pre|, p) == |pre| + |run|;
    assert s[|pre|..|pre| + |run|] == run;
  }

  // ---------------------------------------------------------------------------
  // parseFloat

  /** How many digits `s` starts with. */
  function DigitCount(s: string): (n: nat)
    ensures n <= |s|
    ensures forall i :: 0 <= i < n ==> IsDigit(s[i])
    ensures n < |s| ==> !IsDigit(s[n])
  {
    if s != [] && IsDigit(s[0]) then 1 + DigitCount(s[1..]) else 0
  }

  /** The longest prefix of `s` made only of digits. */
  function DigitPrefix(s: string): (r: string)
    ensures r <= s && AllDigits(r)
  {
    s[..DigitCount(s)]
  }

  /** A digit string followed by a non-digit is its own digit prefix. */
  lemma {:induction false} DigitCountOf(ds: string, rest: string)
    requires AllDigits(ds)
    requires rest == [] || !IsDigit(rest[0])
    ensures DigitCount(ds + rest) == |ds|
  {
    if ds == [] {
      assert ds + rest == rest;
    } else {
      assert (ds + rest)[1..] == ds[1..] + rest;
      DigitCountOf(ds[1..], rest);
    }
  }

  function Pow10(n: nat): (r: real)
    ensures r >= 1.0
  {
    if n == 0 then 1.0 else 10.0 * Pow10(n - 1)
  }

  /** `m` times ten to the power `e`. */
  function Scale(m: real, e: int): real
  {
    if e >= 0 then m * Pow10(e) else m / Pow10(0 - e)
  }

  /** The value of the digits after the point: `0.d1d2...`. */
  function FractionValue(frac: string): (r: real)
    requires AllDigits(frac)
    ensures frac == [] ==> r == 0.0
  {
    DecimalValue(frac) as real / Pow10(|frac|)
  }

  /** An exponent part at the front of `s`: `e` or `E`, an optional sign and at least one
      digit; `None` when there is none, and then nothing more is read. */
  function ExponentOf(s: string): (r: Option<int>)
    ensures r.Some? ==> |s| > 1 && (s[0] == 'e' || s[0] == 'E')
  {
    if |s| > 0 && (s[0] == 'e' || s[0] == 'E') then
      var t := s[1..];
      var signed := |t| > 0 && (t[0] == '+' || t[0] == '-');
      var ds := DigitPrefix(if signed then t[1..] else t);
      if ds == [] then None
      else Some(if signed && t[0] == '-' then 0 - DecimalValue(ds) else DecimalValue(ds))
    else None
  }

  /** The unsigned decimal literal at the front of `s`: digits, an optional point and
      fraction digits, then an optional exponent; `None` when neither side of the point
      has a digit. */
  function UnsignedPrefixValue(s: string): (r: Option<real>)
    ensures r.Some? <==> (|s| > 0 && IsDigit(s[0])) || (|s| > 1 && s[0] == '.' && IsDigit(s[1]))
  {
    var whole := DigitPrefix(s);
    var afterWhole := s[|whole|..];
    var hasPoint := |afterWhole| > 0 && afterWhole[0] == '.';
    var frac := if hasPoint then DigitPrefix(afterWhole[1..]) else [];
    if whole == [] && frac == [] then None
    else
      var rest := if hasPoint then afterWhole[1 + |frac|..] else afterWhole;
      var m := DecimalValue(whole) as real + FractionValue(frac);
      var e := ExponentOf(rest);
      Some(if e.Some? then Scale(m, e.value) else m)
  }

  /** A decimal literal starts here: a digit, or a point followed by a digit. */
  predicate StartsLiteral(s: string)
  {
    (|s| > 0 && IsDigit(s[0])) || (|s| > 1 && s[0] == '.' && IsDigit(s[1]))
  }

  /** What follows an optional leading sign. */
  function Unsigned(t: string): (r: string)
    ensures |r| <= |t|
  {
    if |t| > 0 && (t[0] == '+' || t[0] == '-') then t[1..] else t
  }

  /** `parseFloat(s)`: leading white space is skipped, then an optional sign and the
      longest decimal literal at the front are read and the rest is ignored; NaN when no
      literal starts there. */
  function ParseFloat(s: string): (r: Number)
    ensures r.Num? <==> StartsLiteral(Unsigned(TrimStart(s)))
  {
    var t := TrimStart(s);
    match UnsignedPrefixValue(Unsigned(t))
      case None => NaN
      case Some(v) => Num(if |t| > 0 && t[0] == '-' then 0.0 - v else v)
  }

  /** Digits followed by text that cannot continue the literal read as their value. */
  lemma UnsignedOfDigits(ds: string, rest: string)
    requires |ds| > 0 && AllDigits(ds)
    requires rest == [] || !(IsDigit(rest[0]) || rest[0] == '.' || rest[0] == 'e' || rest[0] == 'E')
    ensures UnsignedPrefixValue(ds + rest) == Some(DecimalValue(ds) as real)
  {
    var s := ds + rest;
    DigitCountOf(ds, rest);
    assert DigitPrefix(s) == ds;
    assert s[|ds|..] == rest;
    assert ExponentOf(rest).None?;
    assert DigitPrefix([]) == [] && DecimalValue([]) == 0 && Pow10(0) == 1.0;
    assert UnsignedPrefixValue(s).Some?;
    assert UnsignedPrefixValue(s).value == DecimalValue(ds) as real;
  }

  /** Text that starts with neither white space nor a sign is read as it stands. */
  lemma ParseFloatPlain(s: string)
    requires |s| > 0 && !IsJsSpace(s[0]) && s[0] != '+' && s[0] != '-'
    ensures ParseFloat(s) == (if UnsignedPrefixValue(s).Some? then Num(UnsignedPrefixValue(s).value) else NaN)
  {
  }

  /** A leading minus negates what follows it. */
  lemma ParseFloatMinus(s: string)
    ensures ParseFloat("-" + s) == (if UnsignedPrefixValue(s).Some? then Num(0.0 - UnsignedPrefixValue(s).value) else NaN)
  {
    assert ("-" + s)[1..] == s;
  }

  /** A natural number's decimal spelling reads back as the number, whatever text follows
      it, as long as that text cannot continue the literal. */
  lemma ParseFloatOfNat(n: nat, rest: string)
    requires rest == [] || !(IsDigit(rest[0]) || rest[0] == '.' || rest[0] == 'e' || rest[0] == 'E')
    ensures ParseFloat(NatToString(n) + rest) == Num(n as real)
  {
    var s := NatToString(n) + rest;
    DecimalOfNatToString(n);
    UnsignedOfDigits(NatToString(n), rest);
    assert s[0] == NatToString(n)[0];
    ParseFloatPlain(s);
  }

  /** With a minus sign in front it reads back as the negated number. */
  lemma ParseFloatOfNegatedNat(n: nat, rest: string)
    requires rest == [] || !(IsDigit(rest[0]) || rest[0] == '.' || rest[0] == 'e' || rest[0] == 'E')
    ensures ParseFloat("-" + (NatToString(n) + rest)) == Num(0.0 - n as real)
  {
    DecimalOfNatToString(n);
    UnsignedOfDigits(NatToString(n), rest);
    ParseFloatMinus(NatToString(n) + rest);
  }

  /** Leading white space is skipped. */
  lemma ParseFloatSkipsSpace(c: char, s: string)
    requires IsJsSpace(c)
    ensures ParseFloat([c] + s) == ParseFloat(s)
  {
    assert ([c] + s)[1..] == s;
  }

  /** A typed budget with a thousands separator reads only up to the comma; text without a
      leading number is NaN. */
  lemma ParseFloatOfTypedText()
    ensures ParseFloat("5,000") == Num(5.0)
    ensures ParseFloat("abc").NaN? && ParseFloat("").NaN? && ParseFloat("-").NaN?
  {
    ParseFloatOfNat(5, ",000");
    assert NatToString(5) == "5";
    assert "5" + ",000" == "5,000";
    assert "-"[1..] == [];
  }

  /** A fraction after the point counts in tenths, hundredths and so on. */
  lemma ParseFloatOfFraction()
    ensures ParseFloat("2.5") == Num(2.5)
  {
    var s := "2.5";
    assert DigitPrefix(s) == "2" by {
      assert s[1..] == ".5";
    }
    assert s[1..] == ".5";
    assert ".5"[1..] == "5";
    assert DigitPrefix("5") == "5" by { assert "5"[1..] == []; }
    assert DecimalValue("2") == 2 by { assert "2"[..0] == []; }
    assert DecimalValue("5") == 5 by { assert "5"[..0] == []; }
    assert ".5"[2..] == [];
    ParseFloatPlain(s);
  }

  /** An exponent scales the value. */
  lemma ParseFloatOfExponent()
    ensures ParseFloat("1e3") == Num(1000.0)
  {
    var s := "1e3";
    assert DigitPrefix(s) == "1" by { assert s[1..] == "e3"; }
    assert s[1..] == "e3";
    assert "e3"[1..] == "3";
    assert DigitPrefix("3") == "3" by { assert "3"[1..] == []; }
    assert DecimalValue("3") == 3 by { assert "3"[..0] == []; }
    assert DecimalValue("1") == 1 by { assert "1"[..0] == []; }
    assert DigitPrefix([]) == [] && DecimalValue([]) == 0;
    assert Pow10(3) == 1000.0;
    ParseFloatPlain(s);
  }

  // ---------------------------------------------------------------------------
  // Trimming, case, containment

  /** `sub` stands in `s` from index `i` on. */
  predicate OccursAt(s: string, sub: string, i: nat)
  {
    i + |sub| <= |s| && s[i..i + |sub|] == sub
  }

  function TrimStart(s: string): (r: string)
    ensures |r| <= |s|
  {
    if s != [] && IsJsSpace(s[0]) then TrimStart(s[1..]) else s
  }

  lemma {:induction false} TrimStartSpec(s: string)
    ensures var r := TrimStart(s);
            && r == s[|s| - |r|..]
            && (r != [] ==> !IsJsSpace(r[0]))
            && (forall i :: 0 <= i < |s| - |r| ==> IsJsSpace(s[i]))
  {
    if s != [] && IsJsSpace(s[0]) {
      TrimStartSpec(s[1..]);
    }
  }

  function TrimEnd(s: string): (r: string)
    ensures |r| <= |s|
  {
    if s != [] && IsJsSpace(s[|s| - 1]) then TrimEnd(s[..|s| - 1]) else s
  }

  lemma {:induction false} TrimEndSpec(s: string)
    ensures var r := TrimEnd(s);
            && r == s[..|r|]
            && (r != [] ==> !IsJsSpace(r[|r| - 1]))
            && (forall i :: |r| <= i < |s| ==> IsJsSpace(s[i]))
  {
    if s != [] && IsJsSpace(s[|s| - 1]) {
      TrimEndSpec(s[..|s| - 1]);
    }
  }

  /** `s.trim()`: `s` without its leading and trailing whitespace. */
  function Trim(s: string): (r: string)
    ensures |r| <= |s|
  {
    TrimEnd(TrimStart(s))
  }

  /** The result is the slice of `s` left after the leading whitespace, with no whitespace at either end; it is empty exactly when `s` is all whitespace. */
  lemma TrimSpec(s: string)
    ensures var r := Trim(s);
            && (r != [] ==> !IsJsSpace(r[0]) && !IsJsSpace(r[|r| - 1]))
            && (r == [] <==> (forall i :: 0 <= i < |s| ==> IsJsSpace(s[i])))
            && OccursAt(s, r, |s| - |TrimStart(s)|)
  {
    var t := TrimStart(s);
    TrimStartSpec(s);
    TrimEndSpec(t);
    var r := TrimEnd(t);
    var n := |s| - |t|;
    assert s[n..n + |r|] == r by {
      assert t == s[n..];
      assert r == t[..|r|];
    }
    if r == [] {
      forall i | 0 <= i < |s| ensures IsJsSpace(s[i]) {
        assert i < n;
      }
    } else {
      assert r[0] == t[0] == s[n];
      assert !IsJsSpace(s[n]);
    }
  }

  /** Text that neither starts nor ends with whitespace is left as it is. */
  lemma TrimUnchanged(s: string)
    requires s != [] ==> !IsJsSpace(s[0]) && !IsJsSpace(s[|s| - 1])
    ensures Trim(s) == s
  {
    assert TrimStart(s) == s;
    assert TrimEnd(s) == s;
  }

  /** Python's `str.isspace` on ASCII: the JavaScript set plus the four separator
      controls 0x1C to 0x1F. */
  predicate IsPySpace(c: char) { IsJsSpace(c) || ('\U{1C}' <= c <= '\U{1F}') }

  function PyStripStart(s: string): (r: string)
    ensures |r| <= |s|
  {
    if s != [] && IsPySpace(s[0]) then PyStripStart(s[1..]) else s
  }

  lemma {:induction false} PyStripStartSpec(s: string)
    ensures var r := PyStripStart(s);
            && r == s[|s| - |r|..]
            && (r != [] ==> !IsPySpace(r[0]))
            && (forall i :: 0 <= i < |s| - |r| ==> IsPySpace(s[i]))
  {
    if s != [] && IsPySpace(s[0]) {
      PyStripStartSpec(s[1..]);
    }
  }

  function PyStripEnd(s: string): (r: string)
    ensures |r| <= |s|
  {
    if s != [] && IsPySpace(s[|s| - 1]) then PyStripEnd(s[..|s| - 1]) else s
  }

  lemma {:induction false} PyStripEndSpec(s: string)
    ensures var r := PyStripEnd(s);
            && r == s[..|r|]
            && (r != [] ==> !IsPySpace(r[|r| - 1]))
            && (forall i :: |r| <= i < |s| ==> IsPySpace(s[i]))
  {
    if s != [] && IsPySpace(s[|s| - 1]) {
      PyStripEndSpec(s[..|s| - 1]);
    }
  }

  /** Python's `s.strip()`: the same shape as `Trim`, over Python's whitespace. */
  function PyStrip(s: string): (r: string)
    ensures |r| <= |s|
  {
    PyStripEnd(PyStripStart(s))
  }

  /** The same characterisation as `TrimSpec`, over Python's whitespace. */
  lemma PyStripSpec(s: string)
    ensures var r := PyStrip(s);
            && (r != [] ==> !IsPySpace(r[0]) && !IsPySpace(r[|r| - 1]))
            && (r == [] <==> (forall i :: 0 <= i < |s| ==> IsPySpace(s[i])))
            && OccursAt(s, r, |s| - |PyStripStart(s)|)
  {
    var t := PyStripStart(s);
    PyStripStartSpec(s);
    PyStripEndSpec(t);
    var r := PyStripEnd(t);
    if r == [] {
      assert forall i :: 0 <= i < |s| ==> IsPySpace(s[i]);
    } else {
      assert r[0] == s[|s| - |t|];
    }
  }

  /** Text that neither starts nor ends with whitespace is left as it is. */
  lemma PyStripUnchanged(s: string)
    requires s != [] ==> !IsPySpace(s[0]) && !IsPySpace(s[|s| - 1])
    ensures PyStrip(s) == s
  {
    assert PyStripStart(s) == s;
    assert PyStripEnd(s) == s;
  }

  function ToLowerChar(c: char): (d: char)
    ensures 'A' <= c <= 'Z' ==> d as int == c as int + 32
    ensures !('A' <= c <= 'Z') ==> d == c
  {
    if 'A' <= c <= 'Z' then (c as int + 32) as char else c
  }

  /** `s.toLowerCase()` for ASCII text. */
  function ToLower(s: string): (r: string)
    ensures |r| == |s|
    ensures forall i :: 0 <= i < |s| ==> r[i] == ToLowerChar(s[i])
  {
    if s == [] then [] else [ToLowerChar(s[0])] + ToLower(s[1..])
  }

  /** `s.includes(sub)` / Python's `sub in s`. */
  predicate Contains(s: string, sub: string)
  {
    exists i | 0 <= i <= |s| - |sub| :: OccursAt(s, sub, i)
  }

  lemma ContainsEmpty(s: string)
    ensures Contains(s, "")
  {
    assert OccursAt(s, "", 0);
  }

  // ---------------------------------------------------------------------------
  // Splitting on a separator

  /** `s.split(sep)` for a one-character separator: the pieces between separators, so
      there is always one more piece than separators and the empty string gives `[""]`. */
  function Split(s: string, sep: char): (pieces: seq<string>)
    ensures |pieces| > 0
    ensures forall k :: 0 <= k < |pieces| ==> sep !in pieces[k]
    decreases |s|
  {
    if s == [] then [""]
    else
      var rest := Split(s[1..], sep);
      if s[0] == sep then [""] + rest
      else [[s[0]] + rest[0]] + rest[1..]
  }

  /** `pieces.join(sep)`. */
  function Join(pieces: seq<string>, sep: char): string
    requires |pieces| > 0
  {
    if |pieces| == 1 then pieces[0] else pieces[0] + [sep] + Join(pieces[1..], sep)
  }

  /** Joining the pieces gives the text back. */
  lemma {:induction false} JoinSplit(s: string, sep: char)
    ensures Join(Split(s, sep), sep) == s
    decreases |s|
  {
    if s != [] {
      var rest := Split(s[1..], sep);
      JoinSplit(s[1..], sep);
      if s[0] == sep {
        assert Split(s, sep)[1..] == rest;
      } else {
        var p := Split(s, sep);
        if |rest| > 1 {
          assert p[1..] == rest[1..];
          assert Join(rest, sep) == rest[0] + [sep] + Join(rest[1..], sep);
        }
      }
    }
  }

  // ---------------------------------------------------------------------------
  // Rounding and sums

  lemma RatioBounds(c: nat, t: nat)
    requires c <= t && t > 0
    ensures 0.0 <= c as real / t as real <= 1.0
    ensures c == t ==> c as real / t as real == 1.0
    ensures c == 0 ==> c as real / t as real == 0.0
  {
  }

  /** `Math.round(c / t * 100)` for a count `c` out of `t > 0`. */
  function RoundedPercent(c: nat, t: nat): (r: int)
    requires c <= t && t > 0
    ensures 0 <= r <= 100
    ensures c == 0 ==> r == 0
    ensures c == t ==> r == 100
    ensures r as real - 0.5 <= c as real / t as real * 100.0 < r as real + 0.5
  {
    RatioBounds(c, t);
    JsRoundPercent(c as real / t as real * 100.0);
    JsRound(c as real / t as real * 100.0)
  }

  /** JavaScript's `Math.round` on an exact rational: ties go up. */
  function JsRound(x: real): (r: int)
    ensures r as real - 0.5 <= x < r as real + 0.5
  {
    (x + 0.5).Floor
  }

  /** Rounding keeps an exact percentage inside [0, 100] and fixes its end points. */
  lemma JsRoundPercent(x: real)
    requires 0.0 <= x <= 100.0
    ensures 0 <= JsRound(x) <= 100
    ensures x == 0.0 ==> JsRound(x) == 0
    ensures x == 100.0 ==> JsRound(x) == 100
  {
  }

  function SumReals(xs: seq<real>): real
  {
    if xs == [] then 0.0 else SumReals(xs[..|xs| - 1]) + xs[|xs| - 1]
  }

  lemma {:induction false} SumRealsAppend(xs: seq<real>, ys: seq<real>)
    ensures SumReals(xs + ys) == SumReals(xs) + SumReals(ys)
    decreases |ys|
  {
    if ys == [] {
      assert xs + ys == xs;
    } else {
      assert (xs + ys)[..|xs + ys| - 1] == xs + ys[..|ys| - 1];
      SumRealsAppend(xs, ys[..|ys| - 1]);
    }
  }

  // ---------------------------------------------------------------------------
  // Filters, totals and prefixes of record lists

  /** `xs.filter(p)`: the elements that satisfy `p`, in their order. */
  function Filter<T>(xs: seq<T>, p: T -> bool): (r: seq<T>)
    ensures |r| <= |xs|
    ensures forall k :: 0 <= k < |r| ==> p(r[k])
  {
    if xs == [] then []
    else (if p(xs[0]) then [xs[0]] else []) + Filter(xs[1..], p)
  }

  /** An element is kept by a filter exactly when it is there and passes the test. */
  lemma {:induction false} FilterMembers<T>(xs: seq<T>, p: T -> bool)
    ensures forall x :: x in Filter(xs, p) <==> x in xs && p(x)
  {
    if xs != [] {
      FilterMembers(xs[1..], p);
      assert xs == [xs[0]] + xs[1..];
    }
  }

  /** When every element passes, the filter keeps them all; when none does, none. */
  lemma {:induction false} FilterAllOrNone<T>(xs: seq<T>, p: T -> bool)
    ensures (forall k :: 0 <= k < |xs| ==> p(xs[k])) ==> Filter(xs, p) == xs
    ensures (forall k :: 0 <= k < |xs| ==> !p(xs[k])) ==> Filter(xs, p) == []
  {
    if xs != [] {
      FilterAllOrNone(xs[1..], p);
    }
  }

  lemma FilterCons<T>(x: T, xs: seq<T>, p: T -> bool)
    ensures Filter([x] + xs, p) == (if p(x) then [x] else []) + Filter(xs, p)
  {
    assert ([x] + xs)[0] == x;
    assert ([x] + xs)[1..] == xs;
  }

  /** Filtering distributes over concatenation, so it keeps the relative order. */
  lemma {:induction false} FilterAppend<T>(a: seq<T>, b: seq<T>, p: T -> bool)
    ensures Filter(a + b, p) == Filter(a, p) + Filter(b, p)
  {
    if a == [] {
      assert a + b == b;
    } else {
      assert (a + b)[1..] == a[1..] + b;
      FilterAppend(a[1..], b, p);
    }
  }

  /** Two tests that agree on every element filter alike. */
  lemma {:induction false} FilterAgree<T>(xs: seq<T>, p: T -> bool, q: T -> bool)
    requires forall k :: 0 <= k < |xs| ==> p(xs[k]) == q(xs[k])
    ensures Filter(xs, p) == Filter(xs, q)
  {
    if xs != [] {
      FilterAgree(xs[1..], p, q);
    }
  }

  /** Filtering twice by the same test is filtering once. */
  lemma FilterTwice<T>(xs: seq<T>, p: T -> bool)
    ensures Filter(Filter(xs, p), p) == Filter(xs, p)
  {
    FilterAllOrNone(Filter(xs, p), p);
  }

  /** `xs.reduce((sum, x) => sum + f(x), 0)`. */
  function SumOf<T>(xs: seq<T>, f: T -> real): real
  {
    if xs == [] then 0.0 else f(xs[0]) + SumOf(xs[1..], f)
  }

  lemma SumOfCons<T>(x: T, xs: seq<T>, f: T -> real)
    ensures SumOf([x] + xs, f) == f(x) + SumOf(xs, f)
  {
    assert ([x] + xs)[0] == x;
    assert ([x] + xs)[1..] == xs;
  }

  lemma {:induction false} SumOfAppend<T>(a: seq<T>, b: seq<T>, f: T -> real)
    ensures SumOf(a + b, f) == SumOf(a, f) + SumOf(b, f)
  {
    if a == [] {
      assert a + b == b;
    } else {
      assert (a + b)[1..] == a[1..] + b;
      SumOfAppend(a[1..], b, f);
    }
  }

  /** A total splits into the total of the elements that satisfy `p` and the total of
      those that satisfy its opposite `q`. */
  lemma {:induction false} SumOfSplit<T>(xs: seq<T>, f: T -> real, p: T -> bool, q: T -> bool)
    requires forall k :: 0 <= k < |xs| ==> (q(xs[k]) <==> !p(xs[k]))
    ensures SumOf(xs, f) == SumOf(Filter(xs, p), f) + SumOf(Filter(xs, q), f)
  {
    if xs != [] {
      var x := xs[0];
      var rest := xs[1..];
      assert xs == [x] + rest;
      SumOfSplit(rest, f, p, q);
      FilterCons(x, rest, p);
      FilterCons(x, rest, q);
      assert q(x) <==> !p(x);
      if p(x) {
        SumOfCons(x, Filter(rest, p), f);
        assert Filter(xs, q) == Filter(rest, q);
      } else {
        SumOfCons(x, Filter(rest, q), f);
        assert Filter(xs, p) == Filter(rest, p);
      }
    }
  }

  /** With no negative values, the total of a part is at most the whole total. */
  lemma SumOfFilterAtMost<T>(xs: seq<T>, f: T -> real, p: T -> bool)
    requires forall k :: 0 <= k < |xs| ==> f(xs[k]) >= 0.0
    ensures 0.0 <= SumOf(Filter(xs, p), f) <= SumOf(xs, f)
  {
    SumOfSplit(xs, f, p, x => !p(x));
    SumOfNonNegative(Filter(xs, p), f, xs, p);
    SumOfNonNegative(Filter(xs, x => !p(x)), f, xs, x => !p(x));
  }

  lemma {:induction false} SumOfNonNegative<T>(ys: seq<T>, f: T -> real, xs: seq<T>, p: T -> bool)
    requires forall k :: 0 <= k < |xs| ==> f(xs[k]) >= 0.0
    requires ys == Filter(xs, p)
    ensures SumOf(ys, f) >= 0.0
    decreases |xs|
  {
    if xs != [] {
      SumOfNonNegative(Filter(xs[1..], p), f, xs[1..], p);
      if p(xs[0]) {
        assert ys == [xs[0]] + Filter(xs[1..], p);
        assert ys[1..] == Filter(xs[1..], p);
      } else {
        assert ys == Filter(xs[1..], p);
      }
    }
  }

  /** `xs.slice(0, n)`. */
  function Take<T>(xs: seq<T>, n: nat): (r: seq<T>)
    ensures |r| == (if |xs| < n then |xs| else n)
    ensures r <= xs
  {
    if |xs| <= n then xs else xs[..n]
  }

  /** Taking `m` of the first `n` is taking `m` when `m <= n`. */
  lemma TakeTake<T>(xs: seq<T>, n: nat, m: nat)
    requires m <= n
    ensures Take(Take(xs, n), m) == Take(xs, m)
  {
  }

  // ---------------------------------------------------------------------------
  // The dashboard widgets' lists and add dialogs

  /** How many rows a dashboard widget's query loads (newest first) and how many of them
      the widget lists. */
  const LoadLimit: nat := 10
  const RecentCount: nat := 5

  /** What a widget keeps of its query: `.limit(10)` on the newest-first rows, then
      `data || []`. */
  function Loaded<T>(rows: Option<seq<T>>): (r: seq<T>)
    ensures |r| <= LoadLimit && r <= OrEmpty(rows)
    ensures |OrEmpty(rows)| >= LoadLimit ==> |r| == LoadLimit
  {
    Take(OrEmpty(rows), LoadLimit)
  }

  /** `slice(0, 5)`: the rows the widget lists. */
  function Recent<T>(xs: seq<T>): (r: seq<T>)
    ensures |r| <= RecentCount && r <= xs
    ensures |xs| >= RecentCount ==> |r| == RecentCount
  {
    Take(xs, RecentCount)
  }

  /** The listed rows are the five newest of the whole query. */
  lemma {:induction false} RecentOfLoaded<T>(rows: Option<seq<T>>)
    ensures Recent(Loaded(rows)) == Take(OrEmpty(rows), RecentCount)
  {
    TakeTake(OrEmpty(rows), LoadLimit, RecentCount);
  }

  /** An add dialog: its form and whether it is open. */
  datatype AddDialog<F> = AddDialog(form: F, open: bool)

  /** The add handlers' shared flow: a form that fails the check inserts nothing and stays;
      otherwise the row is sent, and only a successful insert closes the dialog and puts
      the blank form back. Returns the row sent, if any, and the dialog afterwards. */
  function SubmitAdd<F, R>(d: AddDialog<F>, passes: bool, row: R, insertOk: bool, blank: F): (r: (Option<R>, AddDialog<F>))
    ensures r.0.Some? <==> passes
    ensures r.0.Some? ==> r.0.value == row
    ensures !passes || !insertOk ==> r.1 == d
    ensures passes && insertOk ==> r.1 == AddDialog(blank, false)
  {
    if !passes then (None, d)
    else if !insertOk then (Some(row), d)
    else (Some(row), AddDialog(blank, false))
  }
}
