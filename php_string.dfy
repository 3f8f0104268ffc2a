/** The PHP 8 string primitives the library relies on: ASCII case mapping
    (`strtolower`, `lcfirst`), `explode` on a one-character separator, and the
    numeric-string grammar behind `is_numeric` and loose comparison. */
module PhpString {
  import opened Wrappers

  // ---------------------------------------------------------------------------
  // Case mapping. Since PHP 8.2 `strtolower` and `lcfirst` map ASCII letters only.
  // ---------------------------------------------------------------------------

  predicate IsUpper(c: char) {
    'A' <= c <= 'Z'
  }

  function ToLower(c: char): (d: char)
    ensures !IsUpper(d)
    ensures !IsUpper(c) ==> d == c
    ensures IsUpper(c) ==> d as int == c as int + 32
  {
    if IsUpper(c) then (c as int + 32) as char else c
  }

  predicate NoUpper(s: string) {
    forall i :: 0 <= i < |s| ==> !IsUpper(s[i])
  }

  /** `strtolower`: every ASCII capital replaced by its small letter. */
  function Lowercase(s: string): (r: string)
    ensures |r| == |s|
    ensures forall i :: 0 <= i < |s| ==> r[i] == ToLower(s[i])
    ensures NoUpper(r)
  {
    seq(|s|, i requires 0 <= i < |s| => ToLower(s[i]))
  }

  /** `lcfirst`: only the first character is lowered. */
  function LcFirst(s: string): (r: string)
    ensures |r| == |s|
    ensures |s| > 0 ==> r[0] == ToLower(s[0]) && r[1..] == s[1..]
  {
    if |s| == 0 then s else [ToLower(s[0])] + s[1..]
  }

  /** Lowering a string that has no capital letter changes nothing. */
  lemma LowercaseOfLower(s: string)
    requires NoUpper(s)
    ensures Lowercase(s) == s
  {
  }

  /** Lowering everything after `lcfirst` is the same as lowering everything. */
  lemma LowercaseAfterLcFirst(s: string)
    ensures Lowercase(LcFirst(s)) == Lowercase(s)
  {
    if |s| > 0 {
      assert ToLower(ToLower(s[0])) == ToLower(s[0]);
    }
  }

  /** `lcfirst` and `strtolower` agree exactly when no capital letter
      follows the first character. */
  lemma {:induction false} LcFirstVersusLowercase(s: string)
    ensures LcFirst(s) == Lowercase(s) <==> forall i :: 1 <= i < |s| ==> !IsUpper(s[i])
  {
    if forall i :: 1 <= i < |s| ==> !IsUpper(s[i]) {
      forall i | 0 <= i < |s|
        ensures LcFirst(s)[i] == Lowercase(s)[i]
      {
        if i > 0 {
          assert LcFirst(s)[i] == s[1..][i - 1] == s[i];
        }
      }
    } else {
      var i :| 1 <= i < |s| && IsUpper(s[i]);
      assert LcFirst(s)[i] == s[1..][i - 1] == s[i];
      assert Lowercase(s)[i] == ToLower(s[i]);
    }
  }

  // ---------------------------------------------------------------------------
  // `explode` with a one-character separator, and its inverse `implode`.
  // ---------------------------------------------------------------------------

  /** `explode(sep, s)`: the pieces of `s` between occurrences of `sep`;
      the empty string gives one empty piece. */
  function Explode(sep: char, s: string): (parts: seq<string>)
    ensures |parts| >= 1
    ensures forall k :: 0 <= k < |parts| ==> sep !in parts[k]
    decreases |s|
  {
    if |s| == 0 then [""]
    else
      var rest := Explode(sep, s[1..]);
      if s[0] == sep then [""] + rest
      else [[s[0]] + rest[0]] + rest[1..]
  }

  /** `implode(sep, parts)`: the pieces joined with `sep` between them. */
  function Implode(sep: char, parts: seq<string>): (s: string)
    requires |parts| >= 1
    decreases |parts|
  {
    if |parts| == 1 then parts[0] else parts[0] + [sep] + Implode(sep, parts[1..])
  }

  /** Exploding loses nothing: joining the pieces back gives the input. */
  lemma {:induction false} ImplodeExplode(sep: char, s: string)
    ensures Implode(sep, Explode(sep, s)) == s
    decreases |s|
  {
    if |s| > 0 {
      var rest := Explode(sep, s[1..]);
      ImplodeExplode(sep, s[1..]);
      assert s == [s[0]] + s[1..];
      if s[0] != sep && |rest| > 1 {
        var parts := Explode(sep, s);
        assert parts[1..] == rest[1..];
        assert Implode(sep, rest) == rest[0] + [sep] + Implode(sep, rest[1..]);
      }
    }
  }

  /** The last piece is the suffix of `s` after the last separator: it is a
      suffix of `s`, a separator stands right before it unless it is all of
      `s`, and it is all of `s` exactly when there is a single piece. */
  lemma {:induction false} ExplodeLastIsSuffix(sep: char, s: string)
    ensures var parts := Explode(sep, s);
            var last := parts[|parts| - 1];
            |last| <= |s| && s[|s| - |last|..] == last &&
            (|last| < |s| ==> s[|s| - |last| - 1] == sep) &&
            (|parts| == 1 <==> last == s)
    decreases |s|
  {
    if |s| > 0 {
      var t := s[1..];
      ExplodeLastIsSuffix(sep, t);
      var rest := Explode(sep, t);
      var parts := Explode(sep, s);
      var last := rest[|rest| - 1];
      assert |last| <= |t| < |s|;
      assert s[|s| - |last|..] == t[|t| - |last|..];
      if |last| < |t| {
        assert s[|s| - |last| - 1] == t[|t| - |last| - 1];
      }
      ExplodeStep(sep, s);
      if s[0] != sep && |rest| == 1 {
        assert last == t;
        assert s == [s[0]] + t;
      }
    }
  }

  /** One step of `Explode`: the last piece is the rest's last piece unless
      the first character joins the rest's only piece. */
  lemma ExplodeStep(sep: char, s: string)
    requires |s| > 0
    ensures var rest := Explode(sep, s[1..]);
            var parts := Explode(sep, s);
            (s[0] == sep || |rest| > 1 ==> |parts| > 1 && parts[|parts| - 1] == rest[|rest| - 1]) &&
            (s[0] != sep && |rest| == 1 ==> parts == [[s[0]] + rest[0]])
  {
  }

  // ---------------------------------------------------------------------------
  // Numeric strings (PHP 8). A numeric string is, after optional leading and
  // trailing whitespace (" \t\n\r\v\f"), an optional sign followed by either
  // an integer (LNUM), a decimal (DNUM: digits with one '.', at least one
  // digit), or either of those with an exponent (e/E, optional sign, digits).
  // ---------------------------------------------------------------------------

  predicate IsWhitespace(c: char) {
    c == ' ' || c == '\t' || c == '\n' || c == '\r' || c as int == 0x0B || c as int == 0x0C
  }

  predicate IsDigit(c: char) {
    '0' <= c <= '9'
  }

  predicate IsSign(c: char) {
    c == '+' || c == '-'
  }

  /** Length of the run of digits at the start of `s`. */
  function LeadingDigits(s: string): (n: nat)
    ensures n <= |s|
    decreases |s|
  {
    if |s| == 0 || !IsDigit(s[0]) then 0 else 1 + LeadingDigits(s[1..])
  }

  /** The run `LeadingDigits` measures is all digits and cannot be extended. */
  lemma {:induction false} LeadingDigitsRun(s: string)
    ensures forall i :: 0 <= i < LeadingDigits(s) ==> IsDigit(s[i])
    ensures LeadingDigits(s) < |s| ==> !IsDigit(s[LeadingDigits(s)])
    decreases |s|
  {
    if |s| > 0 && IsDigit(s[0]) {
      LeadingDigitsRun(s[1..]);
      forall i | 1 <= i < LeadingDigits(s)
        ensures IsDigit(s[i])
      {
        assert s[i] == s[1..][i - 1];
      }
    }
  }

  /** `s` without its leading whitespace. */
  function TrimLeft(s: string): (r: string)
    ensures |r| <= |s|
    ensures |r| > 0 ==> !IsWhitespace(r[0])
    decreases |s|
  {
    if |s| > 0 && IsWhitespace(s[0]) then TrimLeft(s[1..]) else s
  }

  /** `s` without its trailing whitespace. */
  function TrimRight(s: string): (r: string)
    ensures |r| <= |s|
    ensures |r| > 0 ==> !IsWhitespace(r[|r| - 1])
    decreases |s|
  {
    if |s| > 0 && IsWhitespace(s[|s| - 1]) then TrimRight(s[..|s| - 1]) else s
  }

  function Trim(s: string): string {
    TrimRight(TrimLeft(s))
  }

  /** `s` without one leading sign character. */
  function Unsigned(t: string): string {
    if |t| > 0 && IsSign(t[0]) then t[1..] else t
  }

  /** LNUM or DNUM: digits with at most one '.', and at least one digit. */
  predicate IsMantissa(m: string) {
    var k := LeadingDigits(m);
    if k == |m| then k > 0
    else m[k] == '.' && LeadingDigits(m[k + 1..]) == |m| - k - 1 && |m| > 1
  }

  /** Position of the first 'e' or 'E' in `u`, or `|u|` when there is none. */
  function ExponentMark(u: string): (j: nat)
    ensures j <= |u|
    ensures j < |u| ==> u[j] == 'e' || u[j] == 'E'
    decreases |u|
  {
    if |u| == 0 || u[0] == 'e' || u[0] == 'E' then 0 else 1 + ExponentMark(u[1..])
  }

  predicate IsUnsignedNumber(u: string) {
    var j := ExponentMark(u);
    if j == |u| then IsMantissa(u)
    else
      var x := Unsigned(u[j + 1..]);
      IsMantissa(u[..j]) && |x| > 0 && LeadingDigits(x) == |x|
  }

  /** `is_numeric` on a string. */
  predicate NumericString(s: string) {
    IsUnsignedNumber(Unsigned(Trim(s)))
  }

  /** The value of a string of decimal digits. */
  function DecimalValue(d: string): (n: nat)
    decreases |d|
  {
    if |d| == 0 then 0
    else 10 * DecimalValue(d[..|d| - 1]) + (d[|d| - 1] as int - '0' as int) % 10
  }

  /** The integer a numeric string in integer form (INT_NUM_STRING) denotes;
      `None` for every other string. */
  function IntegerValue(s: string): (v: Option<int>)
    ensures v.Some? ==> NumericString(s)
  {
    var t := Trim(s);
    var u := Unsigned(t);
    if |u| > 0 && LeadingDigits(u) == |u| then
      LeadingDigitsRun(u);
      ExponentMarkOfDigits(u);
      var n: int := DecimalValue(u);
      Some(if |t| > 0 && t[0] == '-' then -n else n)
    else None
  }

  /** Every non-empty run of digits is numeric and denotes its decimal value:
      "007" is the integer 7. */
  lemma {:induction false} DigitsAreNumeric(s: string)
    requires |s| > 0 && forall i :: 0 <= i < |s| ==> IsDigit(s[i])
    ensures NumericString(s)
    ensures IntegerValue(s) == Some(DecimalValue(s))
  {
    AllDigitsRun(s);
    ExponentMarkOfDigits(s);
    assert !IsWhitespace(s[0]) && !IsWhitespace(s[|s| - 1]);
    assert TrimLeft(s) == s;
    assert TrimRight(s) == s;
    assert Trim(s) == s;
    assert !IsSign(s[0]);
    assert Unsigned(s) == s;
    assert IsMantissa(s);
  }

  lemma {:induction false} AllDigitsRun(s: string)
    requires forall i :: 0 <= i < |s| ==> IsDigit(s[i])
    ensures LeadingDigits(s) == |s|
    decreases |s|
  {
    if |s| > 0 {
      AllDigitsRun(s[1..]);
    }
  }

  lemma {:induction false} ExponentMarkOfDigits(s: string)
    requires forall i :: 0 <= i < |s| ==> IsDigit(s[i])
    ensures ExponentMark(s) == |s|
    decreases |s|
  {
    if |s| > 0 {
      ExponentMarkOfDigits(s[1..]);
    }
  }
}
