/** The JavaScript string operations the pages rely on, over `string` (a `seq<char>`):
    `toLowerCase`, `includes`, `trim`, `isNaN(parseFloat(_))`, `String(n)` for an
    integer and unary `+` on the strings `String(n)` produces. */
module Text {
  import opened Common

  // ---------------------------------------------------------------- case

  /** `toLowerCase` on one character, for the ASCII and Latin-1 capitals
      (A-Z and À-Þ except the multiplication sign). */
  function LowerChar(c: char): char
  {
    if 'A' <= c <= 'Z' || (0xC0 <= c as int <= 0xDE && c as int != 0xD7)
    then (c as int + 32) as char
    else c
  }

  /** `s.toLowerCase()`: every character lowered, nothing added or dropped. */
  function Lower(s: string): (r: string)
    ensures |r| == |s|
    ensures forall i :: 0 <= i < |s| ==> r[i] == LowerChar(s[i])
  {
    if s == [] then [] else [LowerChar(s[0])] + Lower(s[1..])
  }

  /** Lowering twice is lowering once, so a search text that is already
      lower case is matched as typed. */
  lemma LowerIdempotent(s: string)
    ensures Lower(Lower(s)) == Lower(s)
  {
    forall i | 0 <= i < |s|
      ensures Lower(Lower(s))[i] == Lower(s)[i]
    {
      var c := s[i];
      if 'A' <= c <= 'Z' || (0xC0 <= c as int <= 0xDE && c as int != 0xD7) {
        assert LowerChar(c) as int == c as int + 32;
      }
    }
  }

  // ---------------------------------------------------------------- includes

  predicate StartsWith(s: string, prefix: string)
  {
    |prefix| <= |s| && s[..|prefix|] == prefix
  }

  /** `s.includes(sub)`: `sub` starts at the first position or somewhere later. */
  predicate Includes(s: string, sub: string)
    decreases |s|
  {
    StartsWith(s, sub) || (|s| > 0 && Includes(s[1..], sub))
  }

  /** `sub` occurs in `s` at index `i`. */
  predicate OccursAt(s: string, sub: string, i: int)
  {
    0 <= i && i + |sub| <= |s| && s[i..i + |sub|] == sub
  }

  /** The scanning definition of `includes` agrees with the positional one:
      `s.includes(sub)` holds exactly when `sub` occurs at some index of `s`. */
  lemma {:induction false} IncludesIff(s: string, sub: string)
    ensures Includes(s, sub) <==> exists i :: OccursAt(s, sub, i)
  {
    if Includes(s, sub) {
      IncludesWitness(s, sub);
    }
    if exists i :: OccursAt(s, sub, i) {
      var i :| OccursAt(s, sub, i);
      OccursIncludes(s, sub, i);
    }
  }

  lemma {:induction false} IncludesWitness(s: string, sub: string)
    requires Includes(s, sub)
    ensures exists i :: OccursAt(s, sub, i)
    decreases |s|
  {
    if StartsWith(s, sub) {
      assert OccursAt(s, sub, 0);
    } else {
      IncludesWitness(s[1..], sub);
      var i :| OccursAt(s[1..], sub, i);
      assert s[1..][i..i + |sub|] == s[i + 1..i + 1 + |sub|];
      assert OccursAt(s, sub, i + 1);
    }
  }

  lemma {:induction false} OccursIncludes(s: string, sub: string, i: int)
    requires OccursAt(s, sub, i)
    ensures Includes(s, sub)
    decreases i
  {
    if i > 0 {
      assert s[1..][i - 1..i - 1 + |sub|] == s[i..i + |sub|];
      OccursIncludes(s[1..], sub, i - 1);
    } else {
      assert StartsWith(s, sub);
    }
  }

  /** The empty text is included in every text. */
  lemma IncludesEmpty(s: string)
    ensures Includes(s, "")
  {
    assert StartsWith(s, "");
  }

  // ---------------------------------------------------------------- white space

  /** The characters ECMAScript treats as white space or line terminators
      (what `trim` strips and `parseFloat` skips). */
  predicate IsJsSpace(c: char)
  {
    var n := c as int;
    (0x09 <= n <= 0x0D) || n == 0x20 || n == 0xA0 || n == 0x1680
    || (0x2000 <= n <= 0x200A) || n == 0x2028 || n == 0x2029
    || n == 0x202F || n == 0x205F || n == 0x3000 || n == 0xFEFF
  }

  /** `s` with its leading white space removed. */
  function TrimStart(s: string): (r: string)
    ensures r == [] || !IsJsSpace(r[0])
    ensures |r| <= |s| && r == s[|s| - |r|..]
    decreases |s|
  {
    if s != [] && IsJsSpace(s[0]) then TrimStart(s[1..]) else s
  }

  /** `s` with its trailing white space removed. */
  function TrimEnd(s: string): (r: string)
    ensures r == [] || !IsJsSpace(r[|r| - 1])
    ensures |r| <= |s| && r == s[..|r|]
    decreases |s|
  {
    if s != [] && IsJsSpace(s[|s| - 1]) then TrimEnd(s[..|s| - 1]) else s
  }

  /** `s.trim()`. */
  function Trim(s: string): string
  {
    TrimEnd(TrimStart(s))
  }

  /** `!s.trim()`: `trim` leaves the empty string exactly when every character is white space. */
  lemma {:induction false} TrimEmptyIff(s: string)
    ensures Trim(s) == "" <==> forall i :: 0 <= i < |s| ==> IsJsSpace(s[i])
  {
    TrimStartEmptyIff(s);
    var t := TrimStart(s);
    if t != [] {
      assert !IsJsSpace(t[0]);
      TrimEndKeepsHead(t);
    }
  }

  lemma {:induction false} TrimStartEmptyIff(s: string)
    ensures TrimStart(s) == "" <==> forall i :: 0 <= i < |s| ==> IsJsSpace(s[i])
    decreases |s|
  {
    if s != [] {
      TrimStartEmptyIff(s[1..]);
      if IsJsSpace(s[0]) {
        assert forall i :: 1 <= i < |s| ==> s[i] == s[1..][i - 1];
      }
    }
  }

  lemma {:induction false} TrimEndKeepsHead(t: string)
    requires t != [] && !IsJsSpace(t[0])
    ensures TrimEnd(t) != []
    decreases |t|
  {
    if IsJsSpace(t[|t| - 1]) {
      assert |t| > 1;
      TrimEndKeepsHead(t[..|t| - 1]);
    }
  }

  // ---------------------------------------------------------------- numbers

  predicate IsDigit(c: char)
  {
    '0' <= c <= '9'
  }

  predicate AllDigits(s: string)
  {
    forall i :: 0 <= i < |s| ==> IsDigit(s[i])
  }

  /** `!isNaN(parseFloat(s))`: after leading white space and an optional sign,
      `s` begins with `Infinity`, with a digit, or with a point followed by a
      digit, which are the only ways a decimal literal prefix can start. */
  function ParsesAsNumber(s: string): (ok: bool)
    ensures ok ==> s != ""
    ensures s != "" && AllDigits(s) ==> ok
    ensures ok ==> exists k :: 0 <= k < |s| && (IsDigit(s[k]) || s[k] == 'I')
  {
    var t := TrimStart(s);
    var u := if t != [] && (t[0] == '+' || t[0] == '-') then t[1..] else t;
    StartsWith(u, "Infinity") || (u != [] && IsDigit(u[0])) || (|u| > 1 && u[0] == '.' && IsDigit(u[1]))
  }

  function DigitChar(d: int): char
    requires 0 <= d < 10
  {
    ('0' as int + d) as char
  }

  /** `String(n)` for a natural number: decimal digits, at least one, with no leading zero. */
  function NatToString(n: nat): (r: string)
    ensures r != [] && AllDigits(r)
    ensures r[0] == '0' ==> n == 0
    decreases n
  {
    if n < 10 then [DigitChar(n)] else NatToString(n / 10) + [DigitChar(n % 10)]
  }

  /** `String(n)` for an integer: a minus sign before the digits of a negative number. */
  function IntToString(n: int): (r: string)
    ensures r != []
    ensures forall i :: 0 <= i < |r| ==> IsDigit(r[i]) || r[i] == '-'
    ensures IsDigit(r[0]) || r[0] == '-'
  {
    if n < 0 then "-" + NatToString(-n) else NatToString(n)
  }

  /** The value of a string of decimal digits. */
  function DigitsValue(s: string): nat
    requires AllDigits(s)
    decreases |s|
  {
    if s == [] then 0 else DigitsValue(s[..|s| - 1]) * 10 + (s[|s| - 1] as int - '0' as int)
  }

  /** Unary `+` on a string of the form `[-]digits`, the empty string (whose
      value is 0) included; None stands for NaN. Other numeric spellings
      JavaScript accepts are not modelled. */
  function DecimalValue(s: string): (r: Option<int>)
    ensures s == "" ==> r == Some(0)
    ensures AllDigits(s) ==> r.Some? && r.value >= 0
    ensures r.Some? && r.value < 0 ==> s[0] == '-'
  {
    if AllDigits(s) then Some(DigitsValue(s))
    else if |s| > 1 && s[0] == '-' && AllDigits(s[1..]) then Some(-(DigitsValue(s[1..]) as int))
    else None
  }

  lemma {:induction false} NatRoundTrip(n: nat)
    ensures DigitsValue(NatToString(n)) == n
    decreases n
  {
    var r := NatToString(n);
    if n < 10 {
      assert r[..|r| - 1] == [];
    } else {
      NatRoundTrip(n / 10);
      assert r[..|r| - 1] == NatToString(n / 10);
    }
  }

  /** `+String(n) === n`: converting an integer to its decimal text and back gives the integer. */
  lemma {:induction false} DecimalRoundTrip(n: int)
    ensures DecimalValue(IntToString(n)) == Some(n)
  {
    var r := IntToString(n);
    if n < 0 {
      NatRoundTrip(-n);
      assert !IsDigit(r[0]);
      assert r[1..] == NatToString(-n);
    } else {
      NatRoundTrip(n);
    }
  }
}
