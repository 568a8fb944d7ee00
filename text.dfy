/**
 * The JavaScript string operations the catalog relies on: `trim`,
 * `toLowerCase`, `includes`, `parseInt` and the `record[key] || fallback`
 * lookup of a label table.
 */
module Text {
  import opened Types

  /** ECMAScript WhiteSpace and LineTerminator code points, the set `trim` removes. */
  predicate IsJsWhitespace(c: char) {
    c in {'\t', '\n', '\U{B}', '\U{C}', '\r', ' ', '\U{A0}', '\U{1680}',
          '\U{2028}', '\U{2029}', '\U{202F}', '\U{205F}', '\U{3000}', '\U{FEFF}'}
    || ('\U{2000}' <= c <= '\U{200A}')
  }

  /** A string with nothing but whitespace in it: what `!s.trim()` tests. */
  predicate IsBlank(s: string) {
    forall i :: 0 <= i < |s| ==> IsJsWhitespace(s[i])
  }

  /** The index of the first non-whitespace character at or after `i`, or `|s|`. */
  function FirstNonBlank(s: string, i: nat): (k: nat)
    requires i <= |s|
    ensures i <= k <= |s|
    ensures forall j :: i <= j < k ==> IsJsWhitespace(s[j])
    ensures k < |s| ==> !IsJsWhitespace(s[k])
    decreases |s| - i
  {
    if i < |s| && IsJsWhitespace(s[i]) then FirstNonBlank(s, i + 1) else i
  }

  /** The end of `s[lo..]` once its trailing whitespace is dropped, scanning down from `e`. */
  function LastNonBlankEnd(s: string, lo: nat, e: nat): (k: nat)
    requires lo <= e <= |s|
    ensures lo <= k <= e
    ensures forall j :: k <= j < e ==> IsJsWhitespace(s[j])
    ensures k > lo ==> !IsJsWhitespace(s[k - 1])
    decreases e
  {
    if e > lo && IsJsWhitespace(s[e - 1]) then LastNonBlankEnd(s, lo, e - 1) else e
  }

  function TrimStart(s: string): (r: string)
    ensures |r| <= |s| && r == s[|s| - |r|..]
    ensures forall i :: 0 <= i < |s| - |r| ==> IsJsWhitespace(s[i])
    ensures r != [] ==> !IsJsWhitespace(r[0])
  {
    s[FirstNonBlank(s, 0)..]
  }

  function TrimEnd(s: string): (r: string)
    ensures |r| <= |s| && r == s[..|r|]
    ensures forall i :: |r| <= i < |s| ==> IsJsWhitespace(s[i])
    ensures r != [] ==> !IsJsWhitespace(r[|r| - 1])
  {
    s[..LastNonBlankEnd(s, 0, |s|)]
  }

  /**
   * `String.prototype.trim`: the run of `s` left after dropping the leading
   * and the trailing whitespace; it neither starts nor ends with whitespace.
   */
  function Trim(s: string): (r: string)
    ensures |r| <= |s|
    ensures var k := |s| - |TrimStart(s)|;
      k + |r| <= |s| && r == s[k..k + |r|]
      && (forall i :: 0 <= i < k ==> IsJsWhitespace(s[i]))
      && (forall i :: k + |r| <= i < |s| ==> IsJsWhitespace(s[i]))
    ensures r != [] ==> !IsJsWhitespace(r[0]) && !IsJsWhitespace(r[|r| - 1])
  {
    var k := FirstNonBlank(s, 0);
    var e := LastNonBlankEnd(s, k, |s|);
    assert |s| - |TrimStart(s)| == k;
    s[k..e]
  }

  /** The trimmed string is empty exactly when the string is all whitespace. */
  lemma TrimEmptyIffBlank(s: string)
    ensures Trim(s) == [] <==> IsBlank(s)
  {
    var t := TrimStart(s);
    if Trim(s) == [] {
      assert t == [];
    } else {
      var r := Trim(s);
      assert r[0] == t[0] == s[|s| - |t|];
    }
  }

  function LowerChar(c: char): char {
    if 'A' <= c <= 'Z' then (c as int + 32) as char else c
  }

  /**
   * `String.prototype.toLowerCase` on the ASCII letters; every other
   * character is left as it is.
   */
  function ToLower(s: string): (r: string)
    ensures |r| == |s|
    ensures forall i :: 0 <= i < |s| ==> r[i] == LowerChar(s[i])
  {
    if s == [] then [] else [LowerChar(s[0])] + ToLower(s[1..])
  }

  /** `String.prototype.includes`: `needle` occurs in `hay` as a contiguous run. */
  predicate Contains(hay: string, needle: string)
    decreases |hay|
  {
    needle <= hay || (hay != [] && Contains(hay[1..], needle))
  }

  /** Contains agrees with the positional definition of an infix. */
  lemma {:induction false} ContainsIffOccursAt(hay: string, needle: string)
    ensures Contains(hay, needle) <==> exists i :: 0 <= i <= |hay| && needle <= hay[i..]
  {
    if needle <= hay {
      assert hay[0..] == hay;
    } else if hay == [] {
    } else {
      ContainsIffOccursAt(hay[1..], needle);
      if Contains(hay[1..], needle) {
        var i :| 0 <= i <= |hay[1..]| && needle <= hay[1..][i..];
        assert hay[1..][i..] == hay[i + 1..];
      } else {
        forall i | 0 <= i <= |hay|
          ensures !(needle <= hay[i..])
        {
          if i == 0 {
            assert hay[0..] == hay;
          } else {
            assert hay[1..][i - 1..] == hay[i..];
          }
        }
      }
    }
  }

  /** Whatever is concatenated into a string occurs in it. */
  lemma ContainsInfix(before: string, needle: string, after: string)
    ensures Contains(before + needle + after, needle)
  {
    var hay := before + needle + after;
    assert needle <= hay[|before|..] by {
      assert hay[|before|..] == needle + after;
    }
    ContainsIffOccursAt(hay, needle);
  }

  /** The value of a character as a digit in base 10 or 16, as `parseInt` reads it. */
  function DigitValue(c: char, radix: nat): Option<nat> {
    if '0' <= c <= '9' then Some(c as nat - '0' as nat)
    else if radix == 16 && 'a' <= c <= 'f' then Some(c as nat - 'a' as nat + 10)
    else if radix == 16 && 'A' <= c <= 'F' then Some(c as nat - 'A' as nat + 10)
    else None
  }

  predicate AllDigits(s: string, radix: nat) {
    forall i :: 0 <= i < |s| ==> DigitValue(s[i], radix).Some?
  }

  /** The longest prefix of `s` made of digits in the given base. */
  function DigitPrefix(s: string, radix: nat): (r: string)
    ensures r <= s && AllDigits(r, radix)
    ensures |r| < |s| ==> DigitValue(s[|r|], radix).None?
  {
    if s != [] && DigitValue(s[0], radix).Some? then [s[0]] + DigitPrefix(s[1..], radix) else []
  }

  function DigitsValue(ds: string, radix: nat): nat
    requires AllDigits(ds, radix)
  {
    if ds == [] then 0
    else DigitsValue(ds[..|ds| - 1], radix) * radix + DigitValue(ds[|ds| - 1], radix).value
  }

  /** The digits at the front of `w` in the given base and their value; `None` when there are none. */
  function LeadingNumber(w: string, radix: nat): Option<nat> {
    var ds := DigitPrefix(w, radix);
    if ds == [] then None else Some(DigitsValue(ds, radix))
  }

  /** The value after the sign: base 16 after a "0x" or "0X" prefix, base 10 otherwise. */
  function ParseMagnitude(u: string): Option<nat> {
    if |u| >= 2 && u[0] == '0' && (u[1] == 'x' || u[1] == 'X') then LeadingNumber(u[2..], 16)
    else LeadingNumber(u, 10)
  }

  /**
   * `parseInt(text)` with no radix argument: leading whitespace is skipped,
   * one sign is read, then the magnitude; `None` is NaN (no digits).
   */
  function ParseInt(text: string): (r: Option<int>)
    ensures text != [] && AllDigits(text, 10) ==> r == Some(DigitsValue(text, 10))
    ensures |text| >= 2 && text[0] == '-' && AllDigits(text[1..], 10) ==> r == Some(-(DigitsValue(text[1..], 10) as int))
    ensures NoDecimalDigit(text) ==> r.None?
  {
    DecimalText(text);
    TrimStartOfPlain(text);
    NegativeDecimalText(text);
    DigitFreeText(text);
    var t := TrimStart(text);
    if |t| > 0 && t[0] == '-' then
      (match ParseMagnitude(t[1..]) case None => None case Some(n) => Some(-(n as int)))
    else if |t| > 0 && t[0] == '+' then
      (match ParseMagnitude(t[1..]) case None => None case Some(n) => Some(n as int))
    else
      (match ParseMagnitude(t) case None => None case Some(n) => Some(n as int))
  }

  /** A string that does not start with whitespace is left as it is by TrimStart. */
  lemma TrimStartOfPlain(s: string)
    ensures s != [] && !IsJsWhitespace(s[0]) ==> TrimStart(s) == s
  {
  }

  lemma {:induction false} DigitPrefixOfDigits(ds: string, radix: nat)
    requires AllDigits(ds, radix)
    ensures DigitPrefix(ds, radix) == ds
  {
    if ds != [] {
      DigitPrefixOfDigits(ds[1..], radix);
    }
  }

  /** A string of decimal digits is read whole, in base 10, with no whitespace or sign before it. */
  lemma DecimalText(ds: string)
    ensures ds != [] && AllDigits(ds, 10) ==>
      !IsJsWhitespace(ds[0]) && ds[0] != '-' && ds[0] != '+' && ParseMagnitude(ds) == Some(DigitsValue(ds, 10))
  {
    if ds != [] && AllDigits(ds, 10) {
      assert DigitValue(ds[0], 10).Some?;
      DecimalDigitIsPlain(ds[0]);
      MagnitudeOfDecimal(ds);
    }
  }

  /** A minus sign followed by decimal digits: nothing is trimmed and the digits are read whole. */
  lemma NegativeDecimalText(text: string)
    ensures |text| >= 2 && text[0] == '-' && AllDigits(text[1..], 10) ==>
      TrimStart(text) == text && ParseMagnitude(text[1..]) == Some(DigitsValue(text[1..], 10))
  {
    if |text| >= 2 && text[0] == '-' && AllDigits(text[1..], 10) {
      assert !IsJsWhitespace('-');
      MagnitudeOfDecimal(text[1..]);
    }
  }

  /** A decimal digit is neither whitespace nor a sign. */
  lemma DecimalDigitIsPlain(c: char)
    requires DigitValue(c, 10).Some?
    ensures !IsJsWhitespace(c) && c != '-' && c != '+'
  {
  }

  /** Decimal digits without a "0x" prefix are read in base 10, all of them. */
  lemma MagnitudeOfDecimal(ds: string)
    requires ds != [] && AllDigits(ds, 10)
    ensures ParseMagnitude(ds) == Some(DigitsValue(ds, 10))
  {
    if |ds| >= 2 {
      assert DigitValue(ds[1], 10).Some?;
    }
    DigitPrefixOfDigits(ds, 10);
  }

  predicate NoDecimalDigit(s: string) {
    forall i :: 0 <= i < |s| ==> !('0' <= s[i] <= '9')
  }

  lemma MagnitudeWithoutDigits(u: string)
    requires NoDecimalDigit(u)
    ensures ParseMagnitude(u) == None
  {
    if u != [] {
      assert DigitValue(u[0], 10).None?;
    }
  }

  /** Text without a single decimal digit has no magnitude to read, with or without a sign. */
  lemma DigitFreeText(text: string)
    ensures NoDecimalDigit(text) ==>
      var t := TrimStart(text);
      ParseMagnitude(t) == None && (|t| > 0 ==> ParseMagnitude(t[1..]) == None)
  {
    if NoDecimalDigit(text) {
      var t := TrimStart(text);
      assert NoDecimalDigit(t) by {
        forall i | 0 <= i < |t|
          ensures !('0' <= t[i] <= '9')
        {
          assert t[i] == text[|text| - |t| + i];
        }
      }
      MagnitudeWithoutDigits(t);
      if |t| > 0 {
        assert NoDecimalDigit(t[1..]) by {
          forall i | 0 <= i < |t| - 1
            ensures !('0' <= t[1..][i] <= '9')
          {
            assert t[1..][i] == t[i + 1];
          }
        }
        MagnitudeWithoutDigits(t[1..]);
      }
    }
  }

  /**
   * `record[key] || fallback` on a string-to-string table: the stored label
   * when the key is present and its label is not the empty string, otherwise
   * the fallback.
   */
  function LookupOr(m: map<string, string>, key: string, fallback: string): (r: string)
    ensures !(key in m && m[key] != "") ==> r == fallback
    ensures key in m && m[key] != "" ==> r == m[key]
  {
    if key in m && m[key] != "" then m[key] else fallback
  }
}
