/** Python's `int()` applied to a `str`, in a simplified ASCII grammar:
    optional surrounding whitespace, an optional sign, then decimal digits
    with single underscores allowed between digits, at most `MaxStrDigits`
    digits in all. */
module IntCoercion {
  import opened Values

  /** The ASCII whitespace `int()` skips around a number: space, tab, '\n',
      '\v', '\f' and '\r'. The separators `\x1c`-`\x1f`, which `str.isspace`
      also accepts, are not skipped. */
  predicate IsSpace(c: char) {
    c == ' ' || 9 <= c as int <= 13
  }

  predicate IsDigit(c: char) {
    48 <= c as int <= 57
  }

  predicate AllSpace(s: string) {
    forall i :: 0 <= i < |s| ==> IsSpace(s[i])
  }

  /** `s` without the leading whitespace `int()` skips. */
  function TrimStart(s: string): string {
    if |s| > 0 && IsSpace(s[0]) then TrimStart(s[1..]) else s
  }

  /** `s` without the trailing whitespace `int()` skips. */
  function TrimEnd(s: string): string {
    if |s| > 0 && IsSpace(s[|s| - 1]) then TrimEnd(s[..|s| - 1]) else s
  }

  /** The leading strip keeps the longest suffix that does not start with whitespace. */
  lemma {:induction false} TrimStartShape(s: string)
    ensures |TrimStart(s)| <= |s| && TrimStart(s) == s[|s| - |TrimStart(s)|..]
    ensures AllSpace(s[..|s| - |TrimStart(s)|])
    ensures TrimStart(s) == [] || !IsSpace(TrimStart(s)[0])
  {
    if |s| > 0 && IsSpace(s[0]) {
      TrimStartShape(s[1..]);
      var k := |s| - |TrimStart(s)|;
      assert s[..k] == [s[0]] + s[1..][..k - 1];
    }
  }

  /** The trailing strip keeps the longest prefix that does not end with whitespace. */
  lemma {:induction false} TrimEndShape(s: string)
    ensures |TrimEnd(s)| <= |s| && TrimEnd(s) == s[..|TrimEnd(s)|]
    ensures AllSpace(s[|TrimEnd(s)|..])
    ensures TrimEnd(s) == [] || !IsSpace(TrimEnd(s)[|TrimEnd(s)| - 1])
  {
    if |s| > 0 && IsSpace(s[|s| - 1]) {
      var p := s[..|s| - 1];
      TrimEndShape(p);
      var k := |TrimEnd(s)|;
      assert s[k..] == p[k..] + [s[|s| - 1]];
    }
  }

  function Strip(s: string): string {
    TrimEnd(TrimStart(s))
  }

  /** Digits, with each underscore standing between two digits. */
  predicate WellFormedDigits(r: string) {
    && |r| > 0
    && IsDigit(r[0])
    && IsDigit(r[|r| - 1])
    && (forall i :: 0 <= i < |r| ==> IsDigit(r[i]) || r[i] == '_')
    && (forall i :: 0 < i < |r| && r[i - 1] == '_' ==> IsDigit(r[i]))
  }

  /** The default of `sys.get_int_max_str_digits()`: `int()` raises ValueError
      on a string with more digits than this. */
  const MaxStrDigits: nat := 4300

  /** The number of digits in `r`, underscores not counted. */
  function DigitCount(r: string): nat {
    if r == [] then 0
    else DigitCount(r[..|r| - 1]) + (if IsDigit(r[|r| - 1]) then 1 else 0)
  }

  /** A digit string `int()` reads: well-formed and within the digit limit. */
  predicate AcceptedDigits(r: string) {
    WellFormedDigits(r) && DigitCount(r) <= MaxStrDigits
  }

  /** The decimal value of the digits of `r`, underscores skipped. */
  function DigitsValue(r: string): nat {
    if r == [] then 0
    else if IsDigit(r[|r| - 1]) then DigitsValue(r[..|r| - 1]) * 10 + (r[|r| - 1] as int - '0' as int)
    else DigitsValue(r[..|r| - 1])
  }

  /** `int(s)` for a `str` s: `Some(n)` when it returns n, `None` when it raises ValueError. */
  function ParseInt(s: string): Option<int> {
    ParseSigned(Strip(s))
  }

  /** An optional sign followed by well-formed digits. */
  function ParseSigned(t: string): Option<int> {
    if |t| > 0 && (t[0] == '+' || t[0] == '-') then
      if AcceptedDigits(t[1..]) then
        var magnitude: int := DigitsValue(t[1..]);
        Some(if t[0] == '-' then -magnitude else magnitude)
      else None
    else if AcceptedDigits(t) then Some(DigitsValue(t))
    else None
  }

  /** The best-effort coercion of a configparser value (config/__init__.py:66-69):
      its integer reading when `int()` accepts it, otherwise the string itself. */
  function CoerceString(v: string): Value {
    match ParseInt(v)
    case Some(n) => Int(n)
    case None => Str(v)
  }

  /** The best-effort coercion of a JSON value (config/__init__.py:85-86).
      `int(True)` and `int(False)` are 1 and 0; `int(None)`, `int(list)` and
      `int(dict)` raise TypeError, which is swallowed. */
  function CoerceJson(v: Value): Value {
    match v
    case Str(s) => CoerceString(s)
    case Bool(b) => Int(if b then 1 else 0)
    case Int(_) => v
    case Null => v
    case Other(_) => v
  }

  /** `str(n)` for a natural number. */
  function NatToDecimal(n: nat): string
    decreases n
  {
    if n < 10 then [('0' as int + n) as char]
    else NatToDecimal(n / 10) + [('0' as int + n % 10) as char]
  }

  function Abs(n: int): nat {
    if n < 0 then -n else n
  }

  /** `str(n)`. */
  function IntToDecimal(n: int): string {
    if n < 0 then "-" + NatToDecimal(-n) else NatToDecimal(n)
  }

  lemma {:induction false} NatToDecimalDigits(n: nat)
    ensures WellFormedDigits(NatToDecimal(n))
    ensures forall i :: 0 <= i < |NatToDecimal(n)| ==> IsDigit(NatToDecimal(n)[i])
    ensures DigitsValue(NatToDecimal(n)) == n
    ensures DigitCount(NatToDecimal(n)) == |NatToDecimal(n)|
    decreases n
  {
    if n >= 10 {
      NatToDecimalDigits(n / 10);
      var p := NatToDecimal(n / 10);
      var r := NatToDecimal(n);
      assert r == p + [('0' as int + n % 10) as char];
      assert r[..|r| - 1] == p;
    }
  }

  /** Whitespace in front of a string that starts with a non-space is all `lstrip` removes. */
  lemma {:induction false} TrimStartPadding(ws: string, x: string)
    requires AllSpace(ws)
    requires x != [] && !IsSpace(x[0])
    ensures TrimStart(ws + x) == x
  {
    if ws != [] {
      assert (ws + x)[1..] == ws[1..] + x;
      TrimStartPadding(ws[1..], x);
    }
  }

  /** Whitespace after a string that ends with a non-space is all `rstrip` removes. */
  lemma {:induction false} TrimEndPadding(x: string, ws: string)
    requires AllSpace(ws)
    requires x != [] && !IsSpace(x[|x| - 1])
    ensures TrimEnd(x + ws) == x
  {
    if ws != [] {
      assert (x + ws)[..|x + ws| - 1] == x + ws[..|ws| - 1];
      TrimEndPadding(x, ws[..|ws| - 1]);
    }
  }

  /** `strip` removes exactly the whitespace around a string that starts and ends with a non-space. */
  lemma StripPadding(pre: string, x: string, post: string)
    requires AllSpace(pre) && AllSpace(post)
    requires x != [] && !IsSpace(x[0]) && !IsSpace(x[|x| - 1])
    ensures Strip(pre + x + post) == x
  {
    assert pre + x + post == pre + (x + post);
    TrimStartPadding(pre, x + post);
    TrimEndPadding(x, post);
  }

  /** `str(n)` is an optional minus sign and well-formed digits that denote n. */
  lemma ParseSignedDecimal(n: int)
    requires |NatToDecimal(Abs(n))| <= MaxStrDigits
    ensures ParseSigned(IntToDecimal(n)) == Some(n)
  {
    var m := Abs(n);
    NatToDecimalDigits(m);
    var d := NatToDecimal(m);
    if n < 0 {
      assert IntToDecimal(n)[1..] == d;
    } else {
      assert IsDigit(d[0]);
    }
  }

  /** `int(str(n)) == n`, also with whitespace around the digits, for every n
      whose decimal form is within the digit limit. */
  lemma ParseIntRoundTrip(pre: string, n: int, post: string)
    requires AllSpace(pre) && AllSpace(post)
    requires |NatToDecimal(Abs(n))| <= MaxStrDigits
    ensures ParseInt(pre + IntToDecimal(n) + post) == Some(n)
  {
    var m := Abs(n);
    NatToDecimalDigits(m);
    var d := NatToDecimal(m);
    var r := IntToDecimal(n);
    if n < 0 {
      assert r == "-" + d;
      assert r[|r| - 1] == d[|d| - 1];
    }
    StripPadding(pre, r, post);
    ParseSignedDecimal(n);
  }

  /** A character that is not whitespace survives `strip`. */
  lemma StripKeeps(s: string, i: nat) returns (j: nat)
    requires i < |s| && !IsSpace(s[i])
    ensures j < |Strip(s)| && Strip(s)[j] == s[i]
  {
    var t1 := TrimStart(s);
    TrimStartShape(s);
    TrimEndShape(t1);
    j := i - (|s| - |t1|);
  }

  /** A foreign character anywhere rules out the sign-and-digits form. */
  lemma ParseSignedRejects(t: string, j: nat)
    requires j < |t|
    requires !IsDigit(t[j]) && t[j] != '_' && t[j] != '+' && t[j] != '-'
    ensures ParseSigned(t) == None
  {
  }

  /** A character that can belong neither to the whitespace, nor to the sign,
      nor to the digits makes `int()` raise. */
  lemma ParseIntRejectsForeign(s: string, i: nat)
    requires i < |s|
    requires !IsSpace(s[i]) && !IsDigit(s[i]) && s[i] != '_' && s[i] != '+' && s[i] != '-'
    ensures ParseInt(s) == None
  {
    var j := StripKeeps(s, i);
    ParseSignedRejects(Strip(s), j);
  }

  /** `int()` of a string that is empty or only whitespace raises. */
  lemma ParseIntRejectsBlank(s: string)
    requires AllSpace(s)
    ensures ParseInt(s) == None
  {
    TrimStartShape(s);
  }

  /** `int()` reads any optional sign and well-formed digits within the digit
      limit, with whitespace around them, as a base-10 number. */
  lemma ParseIntAccepts(pre: string, sign: string, r: string, post: string)
    requires AllSpace(pre) && AllSpace(post)
    requires sign == "" || sign == "+" || sign == "-"
    requires AcceptedDigits(r)
    ensures ParseInt(pre + sign + r + post) == Some(if sign == "-" then -(DigitsValue(r) as int) else DigitsValue(r))
  {
    var x := sign + r;
    assert x[|x| - 1] == r[|r| - 1];
    assert pre + sign + r + post == pre + x + post;
    StripPadding(pre, x, post);
    if sign == "" {
      assert x == r;
    } else {
      assert x[0] == sign[0] && x[1..] == r;
    }
  }

  /** `strip` removes only whitespace: `s` is the stripped text with whitespace around it. */
  lemma StripSplit(s: string) returns (pre: string, post: string)
    ensures AllSpace(pre) && AllSpace(post)
    ensures s == pre + Strip(s) + post
  {
    var t1 := TrimStart(s);
    TrimStartShape(s);
    TrimEndShape(t1);
    pre := s[..|s| - |t1|];
    post := t1[|Strip(s)|..];
    assert s == pre + t1;
    assert t1 == Strip(s) + post;
  }

  /** Every string `int()` accepts has that form: whitespace, an optional sign,
      well-formed digits within the limit, whitespace. */
  lemma ParseIntShape(s: string) returns (pre: string, sign: string, r: string, post: string)
    requires ParseInt(s).Some?
    ensures AllSpace(pre) && AllSpace(post)
    ensures sign == "" || sign == "+" || sign == "-"
    ensures AcceptedDigits(r)
    ensures s == pre + sign + r + post
  {
    var t := Strip(s);
    pre, post := StripSplit(s);
    assert ParseSigned(t).Some?;
    if |t| > 0 && (t[0] == '+' || t[0] == '-') {
      sign := t[..1];
      r := t[1..];
      assert t == sign + r;
    } else {
      sign := "";
      r := t;
    }
    assert s == pre + (sign + r) + post;
  }

  /** A number that is well-formed but has more digits than the limit makes `int()` raise. */
  lemma ParseIntRejectsLong(pre: string, sign: string, r: string, post: string)
    requires AllSpace(pre) && AllSpace(post)
    requires sign == "" || sign == "+" || sign == "-"
    requires WellFormedDigits(r) && DigitCount(r) > MaxStrDigits
    ensures ParseInt(pre + sign + r + post) == None
  {
    var x := sign + r;
    assert x[|x| - 1] == r[|r| - 1];
    assert pre + sign + r + post == pre + x + post;
    StripPadding(pre, x, post);
    if sign == "" {
      assert x == r;
    } else {
      assert x[0] == sign[0] && x[1..] == r;
    }
  }

  /** `int()` reads "1" as 1, and " -1_000\n" as -1000: whitespace around the
      number, a sign and underscores between digits are accepted. */
  lemma ParseIntAcceptsExamples()
    ensures ParseInt("1") == Some(1)
    ensures ParseInt(" -1_000\n") == Some(-1000)
  {
    ParseIntAccepts("", "", "1", "");
    assert "" + "" + "1" + "" == "1";
    assert "1_000"[..4] == "1_00";
    assert "1_00"[..3] == "1_0";
    assert "1_0"[..2] == "1_";
    assert "1_"[..1] == "1";
    assert "1"[..0] == "";
    assert AcceptedDigits("1_000") by {
      assert DigitCount("1_000") == 4;
      forall i | 0 < i < 5 && "1_000"[i - 1] == '_' ensures IsDigit("1_000"[i]) {
        assert i == 2;
      }
    }
    assert DigitsValue("1_000") == 1000;
    ParseIntAccepts(" ", "-", "1_000", "\n");
    assert " " + "-" + "1_000" + "\n" == " -1_000\n";
  }

  /** `int()` raises on an underscore doubled or at either end, and on a leading
      `\x1c`, which it does not count as whitespace. */
  lemma ParseIntRejectsExamples()
    ensures ParseInt("1__0") == None && ParseInt("_1") == None && ParseInt("1_") == None
    ensures ParseInt([28 as char, '5']) == None
  {
    assert "1__0"[1] == '_' && !IsDigit("1__0"[2]);
    StripPadding("", "1__0", "");
    assert "" + "1__0" + "" == "1__0";
    StripPadding("", "_1", "");
    assert "" + "_1" + "" == "_1";
    StripPadding("", "1_", "");
    assert "" + "1_" + "" == "1_";
    ParseIntRejectsForeign([28 as char, '5'], 0);
  }
}
