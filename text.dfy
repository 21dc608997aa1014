/** String helpers with Python's meaning: `str < str` (code-point
    lexicographic order), `int(str)`, `str(int)`, `str.split('/')[-1]` and
    `distutils.util.strtobool`. */
module Text {
  import opened Base

  /** Python's `a <= b` on strings: lexicographic by code point. */
  predicate StrLe(a: string, b: string)
  {
    |a| == 0 || (|b| > 0 && (a[0] < b[0] || (a[0] == b[0] && StrLe(a[1..], b[1..]))))
  }

  lemma {:induction false} StrLeRefl(a: string)
    ensures StrLe(a, a)
  {
    if |a| > 0 { StrLeRefl(a[1..]); }
  }

  lemma {:induction false} StrLeTotal(a: string, b: string)
    ensures StrLe(a, b) || StrLe(b, a)
  {
    if |a| > 0 && |b| > 0 && a[0] == b[0] { StrLeTotal(a[1..], b[1..]); }
  }

  lemma {:induction false} StrLeTrans(a: string, b: string, c: string)
    requires StrLe(a, b) && StrLe(b, c)
    ensures StrLe(a, c)
  {
    if |a| > 0 && a[0] == b[0] && b[0] == c[0] { StrLeTrans(a[1..], b[1..], c[1..]); }
  }

  lemma {:induction false} StrLeAntisym(a: string, b: string)
    requires StrLe(a, b) && StrLe(b, a)
    ensures a == b
  {
    if |a| > 0 {
      StrLeAntisym(a[1..], b[1..]);
      assert a == [a[0]] + a[1..] && b == [b[0]] + b[1..];
    }
  }

  predicate IsDigit(c: char) { '0' <= c <= '9' }

  predicate AllDigits(s: string) { forall i :: 0 <= i < |s| ==> IsDigit(s[i]) }

  /** The ASCII whitespace `int()` ignores around its argument. */
  predicate IsSpace(c: char) { c == ' ' || c == '\t' || c == '\n' || c == '\r' || c == '\U{B}' || c == '\U{C}' }

  function DigitsValue(s: string): nat
    requires AllDigits(s)
  {
    if s == [] then 0 else 10 * DigitsValue(s[..|s| - 1]) + (s[|s| - 1] as int - '0' as int)
  }

  function StripLeft(s: string): (r: string)
    ensures |r| <= |s| && r == s[|s| - |r|..]
    ensures |r| > 0 ==> !IsSpace(r[0])
  {
    if |s| > 0 && IsSpace(s[0]) then StripLeft(s[1..]) else s
  }

  function StripRight(s: string): (r: string)
    ensures |r| <= |s| && r == s[..|r|]
    ensures |r| > 0 ==> !IsSpace(r[|r| - 1])
  {
    if |s| > 0 && IsSpace(s[|s| - 1]) then StripRight(s[..|s| - 1]) else s
  }

  /** `int(s)` for a string: surrounding whitespace, an optional sign and at
      least one decimal digit; `None` is the ValueError. */
  function ParseInt(s: string): Option<int>
  {
    var t := StripRight(StripLeft(s));
    if |t| > 1 && (t[0] == '-' || t[0] == '+') && AllDigits(t[1..]) then
      Some(if t[0] == '-' then -(DigitsValue(t[1..]) as int) else DigitsValue(t[1..]))
    else if |t| > 0 && AllDigits(t) then Some(DigitsValue(t))
    else None
  }

  function NatToString(n: nat): (r: string)
    ensures |r| > 0 && AllDigits(r)
    decreases n
  {
    var d := ['0' + ((n % 10) as char)];
    if n < 10 then d else NatToString(n / 10) + d
  }

  /** `str(i)` for an int. */
  function IntToString(i: int): string
  {
    if i < 0 then "-" + NatToString(-i) else NatToString(i)
  }

  lemma {:induction false} DigitsValueOfNatToString(n: nat)
    ensures DigitsValue(NatToString(n)) == n
    decreases n
  {
    var r := NatToString(n);
    if n >= 10 {
      DigitsValueOfNatToString(n / 10);
      assert r[..|r| - 1] == NatToString(n / 10);
    }
  }

  lemma NoSpaceInDigits(s: string)
    requires |s| > 0 && AllDigits(s)
    ensures StripRight(StripLeft(s)) == s
  {
    assert !IsSpace(s[0]) && !IsSpace(s[|s| - 1]);
  }

  /** `int(str(i)) == i`: the integer checks of the configuration builders
      accept every rendered integer. */
  lemma ParseIntOfIntToString(i: int)
    ensures ParseInt(IntToString(i)) == Some(i)
  {
    var t := IntToString(i);
    if i < 0 {
      var d := NatToString(-i);
      assert t == "-" + d && t[1..] == d;
      assert !IsSpace(t[0]) && !IsSpace(t[|t| - 1]);
      assert StripLeft(t) == t;
      assert StripRight(t) == t;
      DigitsValueOfNatToString(-i);
    } else {
      NoSpaceInDigits(t);
      DigitsValueOfNatToString(i);
    }
  }

  function LowerChar(c: char): char
  {
    if 'A' <= c <= 'Z' then (c as int - 'A' as int + 'a' as int) as char else c
  }

  function Lower(s: string): (r: string)
    ensures |r| == |s|
  {
    if s == [] then [] else [LowerChar(s[0])] + Lower(s[1..])
  }

  /** `distutils.util.strtobool`: `None` is its ValueError. */
  function StrToBool(s: string): (r: Option<bool>)
  {
    var v := Lower(s);
    if v in {"y", "yes", "t", "true", "on", "1"} then Some(true)
    else if v in {"n", "no", "f", "false", "off", "0"} then Some(false)
    else None
  }

  /** `s.split('/')[-1]`: the text after the last slash. */
  function LastSegment(s: string): (r: string)
  {
    if s == [] then [] else if s[|s| - 1] == '/' then [] else LastSegment(s[..|s| - 1]) + [s[|s| - 1]]
  }

  /** The segment is a suffix of the input, holds no slash, and is either all
      of the input or preceded by a slash. */
  lemma {:induction false} LastSegmentIsLastSlashSuffix(s: string)
    ensures var r := LastSegment(s);
      && |r| <= |s| && r == s[|s| - |r|..]
      && '/' !in r
      && (|r| < |s| ==> s[|s| - |r| - 1] == '/')
  {
    if s != [] && s[|s| - 1] != '/' {
      LastSegmentIsLastSlashSuffix(s[..|s| - 1]);
    }
  }

  /** `(prefix + "/" + name).split('/')[-1] == name` for a name without slash. */
  lemma {:induction false} LastSegmentOfSlashJoin(prefix: string, name: string)
    requires '/' !in name
    ensures LastSegment(prefix + "/" + name) == name
    decreases |name|
  {
    var s := prefix + "/" + name;
    if name == [] {
      assert s[|s| - 1] == '/';
    } else {
      var init := name[..|name| - 1];
      assert s[..|s| - 1] == prefix + "/" + init;
      assert '/' !in init by {
        forall i | 0 <= i < |init| ensures init[i] != '/' { assert init[i] == name[i]; }
      }
      LastSegmentOfSlashJoin(prefix, init);
      assert name == init + [name[|name| - 1]];
    }
  }
}
