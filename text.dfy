/** JavaScript string primitives the core relies on: `\s`, `trim`, `includes`,
    `toLowerCase`/`toUpperCase` (ASCII letters), `split(c)[0]` and decimal rendering. */
module Text {

  /** The WhiteSpace and LineTerminator code points of ECMAScript: what `\s` matches
      and what `String.prototype.trim` strips. */
  predicate IsSpace(c: char)
  {
    c == ' ' || c == '\t' || c == '\n' || c == '\U{000B}' || c == '\U{000C}' || c == '\r'
    || c == '\U{00A0}' || c == '\U{1680}' || ('\U{2000}' <= c <= '\U{200A}')
    || c == '\U{2028}' || c == '\U{2029}' || c == '\U{202F}' || c == '\U{205F}'
    || c == '\U{3000}' || c == '\U{FEFF}'
  }

  predicate Blank(s: string)
  {
    forall i :: 0 <= i < |s| ==> IsSpace(s[i])
  }

  function TrimStart(s: string): string
  {
    if s != [] && IsSpace(s[0]) then TrimStart(s[1..]) else s
  }

  function TrimEnd(s: string): string
  {
    if s != [] && IsSpace(s[|s| - 1]) then TrimEnd(s[..|s| - 1]) else s
  }

  /** `String.prototype.trim`. */
  function Trim(s: string): string
  {
    TrimEnd(TrimStart(s))
  }

  lemma {:induction false} TrimStartBlank(s: string)
    ensures TrimStart(s) == [] <==> Blank(s)
    ensures TrimStart(s) != [] ==> !IsSpace(TrimStart(s)[0])
  {
    if s != [] && IsSpace(s[0]) {
      TrimStartBlank(s[1..]);
      assert Blank(s) <==> Blank(s[1..]) by {
        if Blank(s[1..]) {
          forall i | 0 <= i < |s| ensures IsSpace(s[i]) {
            if i > 0 { assert s[i] == s[1..][i - 1]; }
          }
        }
        if Blank(s) {
          forall i | 0 <= i < |s[1..]| ensures IsSpace(s[1..][i]) {
            assert s[1..][i] == s[i + 1];
          }
        }
      }
    }
  }

  lemma {:induction false} TrimEndBlank(s: string)
    ensures TrimEnd(s) == [] <==> Blank(s)
  {
    if s != [] && IsSpace(s[|s| - 1]) {
      var t := s[..|s| - 1];
      TrimEndBlank(t);
      assert Blank(s) <==> Blank(t) by {
        if Blank(t) {
          forall i | 0 <= i < |s| ensures IsSpace(s[i]) {
            if i < |s| - 1 { assert s[i] == t[i]; }
          }
        }
      }
    }
  }

  /** A string trims to "" exactly when every character is white space;
      this is what the `!value.trim()` guards of the forms test. */
  lemma TrimEmptyIffBlank(s: string)
    ensures Trim(s) == [] <==> Blank(s)
  {
    TrimStartBlank(s);
    TrimEndBlank(TrimStart(s));
  }

  /** `text.includes(pat)`: some window of `text` equals `pat`. */
  predicate Contains(text: string, pat: string)
  {
    exists i :: 0 <= i <= |text| - |pat| && OccursAt(text, pat, i)
  }

  predicate OccursAt(text: string, pat: string, i: int)
  {
    0 <= i && i + |pat| <= |text| && text[i..i + |pat|] == pat
  }

  /** If `mid` occurs in `text` and `pat` occurs in `mid`, then `pat` occurs in `text`.
      This is why a phrase such as "show products" can never match where "products" does not. */
  lemma ContainsTransitive(text: string, mid: string, pat: string)
    requires Contains(text, mid) && Contains(mid, pat)
    ensures Contains(text, pat)
  {
    var i :| 0 <= i <= |text| - |mid| && OccursAt(text, mid, i);
    var j :| 0 <= j <= |mid| - |pat| && OccursAt(mid, pat, j);
    assert mid == text[i..i + |mid|];
    forall k | 0 <= k < |pat| ensures text[i + j + k] == pat[k] {
      assert pat[k] == mid[j + k];
      assert mid[j + k] == text[i + j + k];
    }
    assert text[i + j..i + j + |pat|] == pat;
    assert OccursAt(text, pat, i + j);
  }

  /** A phrase contains each of its own suffixes. */
  lemma ContainsSuffix(prefix: string, pat: string)
    ensures Contains(prefix + pat, pat)
  {
    assert (prefix + pat)[|prefix|..|prefix| + |pat|] == pat;
    assert OccursAt(prefix + pat, pat, |prefix|);
  }

  /** A phrase contains each of its own prefixes. */
  lemma ContainsPrefix(pat: string, rest: string)
    ensures Contains(pat + rest, pat)
  {
    assert (pat + rest)[0..|pat|] == pat;
    assert OccursAt(pat + rest, pat, 0);
  }

  /** A phrase contains whatever it holds between a prefix and a suffix. */
  lemma ContainsMiddle(prefix: string, pat: string, suffix: string)
    ensures Contains(prefix + pat + suffix, pat)
  {
    assert (prefix + pat + suffix)[|prefix|..|prefix| + |pat|] == pat;
    assert OccursAt(prefix + pat + suffix, pat, |prefix|);
  }

  function LowerChar(c: char): char
  {
    if 'A' <= c <= 'Z' then (c as int + 32) as char else c
  }

  function UpperChar(c: char): char
  {
    if 'a' <= c <= 'z' then (c as int - 32) as char else c
  }

  /** `toLowerCase` on ASCII letters. */
  function ToLower(s: string): (r: string)
    ensures |r| == |s|
  {
    seq(|s|, i requires 0 <= i < |s| => LowerChar(s[i]))
  }

  /** `toUpperCase` on ASCII letters. */
  function ToUpper(s: string): (r: string)
    ensures |r| == |s|
  {
    seq(|s|, i requires 0 <= i < |s| => UpperChar(s[i]))
  }

  /** Lowercasing is idempotent, so matching a lowercased text against a lowercased
      pattern does not depend on whether either was lowercased already. */
  lemma ToLowerIdempotent(s: string)
    ensures ToLower(ToLower(s)) == ToLower(s)
  {
  }

  /** `s.charAt(0)`: the first character, or "" for the empty string. */
  function CharAt0(s: string): (r: string)
    ensures |r| == (if s == [] then 0 else 1)
  {
    if s == [] then [] else [s[0]]
  }

  /** `s.split(c)[0]`: the text before the first `c`, or all of `s` when there is none. */
  function BeforeFirst(s: string, c: char): (r: string)
    ensures c !in r
    ensures r <= s
    ensures |r| < |s| ==> s[|r|] == c
  {
    if s == [] || s[0] == c then [] else [s[0]] + BeforeFirst(s[1..], c)
  }

  function DigitChar(d: nat): char
    requires d < 10
  {
    "0123456789"[d]
  }

  /** `String(n)` for a natural number. */
  function Decimal(n: nat): (r: string)
    ensures |r| >= 1
    ensures forall i :: 0 <= i < |r| ==> '0' <= r[i] <= '9'
    ensures n < 10 ==> |r| == 1
    ensures n >= 10 ==> |r| >= 2
    ensures n > 0 ==> r[0] != '0'
  {
    if n < 10 then [DigitChar(n)] else Decimal(n / 10) + [DigitChar(n % 10)]
  }

  /** Two-digit numbers render as their tens digit followed by their units digit. */
  lemma DecimalTwoDigits(n: nat)
    requires 10 <= n < 100
    ensures Decimal(n) == [DigitChar(n / 10), DigitChar(n % 10)]
  {
  }
}
