/** The callback data of the choice buttons, `choice_{i}`, and how the
    handler reads the index back (bot/handlers.py). */
module CallbackData {
  import opened Wrappers

  predicate IsDigit(c: char) {
    '0' <= c <= '9'
  }

  predicate AllDigits(s: string) {
    forall k :: 0 <= k < |s| ==> IsDigit(s[k])
  }

  function DigitChar(d: nat): (c: char)
    requires d < 10
    ensures IsDigit(c)
  {
    (48 + d) as char
  }

  function DigitValue(c: char): (d: nat)
    requires IsDigit(c)
    ensures d < 10
  {
    (c as int) - 48
  }

  /** `str(n)` for a natural number: its decimal digits, no leading zeros. */
  function NatToString(n: nat): (s: string)
    ensures |s| > 0 && AllDigits(s)
    ensures n == 0 || s[0] != '0'
    decreases n
  {
    if n < 10 then [DigitChar(n)] else NatToString(n / 10) + [DigitChar(n % 10)]
  }

  /** The number a non-empty string of decimal digits denotes. */
  function DigitsValue(s: string): (v: nat)
    requires AllDigits(s)
    decreases |s|
  {
    if |s| == 0 then 0
    else
      var init := s[..|s| - 1];
      assert AllDigits(init) by {
        forall k | 0 <= k < |init| ensures IsDigit(init[k]) { assert init[k] == s[k]; }
      }
      10 * DigitsValue(init) + DigitValue(s[|s| - 1])
  }

  lemma {:induction false} DigitsOfNat(n: nat)
    ensures DigitsValue(NatToString(n)) == n
    decreases n
  {
    if n >= 10 {
      var s := NatToString(n);
      assert s[..|s| - 1] == NatToString(n / 10);
      DigitsOfNat(n / 10);
    }
  }

  /** The white space `int()` ignores around a number (its ASCII part). */
  predicate IsSpace(c: char) {
    c == ' ' || c == '\t' || c == '\n' || c == '\r' || c == '\U{0B}' || c == '\U{0C}'
    || ('\U{1C}' <= c <= '\U{1F}')
  }

  function TrimStart(s: string): (r: string)
    ensures |r| <= |s|
    ensures r == [] || !IsSpace(r[0])
    decreases |s|
  {
    if |s| > 0 && IsSpace(s[0]) then TrimStart(s[1..]) else s
  }

  function TrimEnd(s: string): (r: string)
    ensures r == [] || !IsSpace(r[|r| - 1])
    decreases |s|
  {
    if |s| > 0 && IsSpace(s[|s| - 1]) then TrimEnd(s[..|s| - 1]) else s
  }

  /** `int(s)` in base 10: surrounding white space, an optional sign and at
      least one digit; anything else is a `ValueError`. */
  function ParseInt(s: string): Option<int> {
    var t := TrimEnd(TrimStart(s));
    var negative := |t| > 0 && t[0] == '-';
    var body := if |t| > 0 && (t[0] == '-' || t[0] == '+') then t[1..] else t;
    if |body| > 0 && AllDigits(body) then
      Some(if negative then -(DigitsValue(body) as int) else DigitsValue(body))
    else None
  }

  /** `s.split(sep)`: the pieces between the separators, empty ones included. */
  function Split(s: string, sep: char): (r: seq<string>)
    ensures |r| > 0
    decreases |s|
  {
    if |s| == 0 then [""]
    else if s[0] == sep then [""] + Split(s[1..], sep)
    else
      var rest := Split(s[1..], sep);
      [[s[0]] + rest[0]] + rest[1..]
  }

  lemma {:induction false} SplitWithoutSeparator(s: string, sep: char)
    requires sep !in s
    ensures Split(s, sep) == [s]
    decreases |s|
  {
    if |s| > 0 {
      assert sep !in s[1..] by {
        forall k | 0 <= k < |s| - 1 ensures s[1..][k] != sep { assert s[1..][k] == s[k + 1]; }
      }
      assert s[0] != sep;
      SplitWithoutSeparator(s[1..], sep);
      assert [s[0]] + s[1..] == s;
    }
  }

  lemma {:induction false} SplitAtFirst(p: string, sep: char, q: string)
    requires sep !in p
    ensures Split(p + [sep] + q, sep) == [p] + Split(q, sep)
    decreases |p|
  {
    var s := p + [sep] + q;
    if |p| == 0 {
      assert s[1..] == q;
    } else {
      assert s[1..] == p[1..] + [sep] + q;
      assert sep !in p[1..] by {
        forall k | 0 <= k < |p| - 1 ensures p[1..][k] != sep { assert p[1..][k] == p[k + 1]; }
      }
      SplitAtFirst(p[1..], sep, q);
      assert [p[0]] + p[1..] == p;
    }
  }

  /** The callback data of the button for option i. */
  function ChoiceData(i: nat): string {
    "choice_" + NatToString(i)
  }

  /** `int(data.split("_")[1])`: `None` where Python raises `IndexError` or
      `ValueError`. */
  function ParseChoice(data: string): Option<int> {
    var parts := Split(data, '_');
    if |parts| < 2 then None else ParseInt(parts[1])
  }

  /** A plain run of digits needs no trimming and reads as its decimal value. */
  lemma ParseDigits(digits: string)
    requires |digits| > 0 && AllDigits(digits)
    ensures ParseInt(digits) == Some(DigitsValue(digits) as int)
  {
    var first, last := digits[0], digits[|digits| - 1];
    assert IsDigit(first) && IsDigit(last);
    assert !IsSpace(first) && !IsSpace(last);
    assert TrimStart(digits) == digits;
    assert TrimEnd(digits) == digits;
    assert first != '-' && first != '+';
  }

  /** The data of button i splits into `choice` and the digits of i. */
  lemma SplitChoiceData(i: nat)
    ensures Split(ChoiceData(i), '_') == ["choice", NatToString(i)]
  {
    var digits := NatToString(i);
    assert '_' !in digits by {
      forall k | 0 <= k < |digits| ensures digits[k] != '_' { assert IsDigit(digits[k]); }
    }
    assert ChoiceData(i) == "choice" + ['_'] + digits;
    SplitAtFirst("choice", '_', digits);
    SplitWithoutSeparator(digits, '_');
  }

  /** Reading back the data of button i gives i. */
  lemma ChoiceRoundTrip(i: nat)
    ensures ParseChoice(ChoiceData(i)) == Some(i)
  {
    SplitChoiceData(i);
    ParseDigits(NatToString(i));
    DigitsOfNat(i);
  }

  /** `choice_` has an empty second part, on which `int` raises `ValueError`. */
  lemma EmptyIndexIsRejected()
    ensures ParseChoice("choice_") == None
  {
    SplitAtFirst("choice", '_', "");
    assert "choice" + ['_'] + "" == "choice_";
  }

  /** Data without a separator has no second part: `IndexError`. */
  lemma MissingIndexIsRejected()
    ensures ParseChoice("choice") == None
  {
    SplitWithoutSeparator("choice", '_');
  }

  lemma MinusOneIsRead()
    ensures ParseInt("-1") == Some(-1)
  {
    assert TrimStart("-1") == "-1";
    assert TrimEnd("-1") == "-1";
    assert "-1"[1..] == "1";
    assert DigitsValue("1") == 1;
  }

  /** A signed index is read as it stands: `choice_-1` gives -1. */
  lemma NegativeIndexIsRead()
    ensures ParseChoice("choice_-1") == Some(-1)
  {
    SplitWithoutSeparator("-1", '_');
    SplitAtFirst("choice", '_', "-1");
    assert "choice" + ['_'] + "-1" == "choice_-1";
    assert Split("choice_-1", '_')[1] == "-1";
    MinusOneIsRead();
  }
}
