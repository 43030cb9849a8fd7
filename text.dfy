/** The handful of Python `str` operations the scraper and the dashboard rely on,
    over `string` (a sequence of Unicode scalar values).

    Character classes follow Python 3 where the inputs are ASCII; `\s` and
    `str.isspace` are modelled with their full Unicode set, while `\d`, `\w`,
    `str.isalnum`, `str.lower` and `str.title` are modelled on ASCII only. */
module Text {

  // ---------------------------------------------------------------------------
  // Character classes
  // ---------------------------------------------------------------------------

  predicate IsDigit(c: char) { '0' <= c <= '9' }

  predicate IsUpper(c: char) { 'A' <= c <= 'Z' }

  predicate IsLower(c: char) { 'a' <= c <= 'z' }

  predicate IsLetter(c: char) { IsUpper(c) || IsLower(c) }

  /** `str.isalnum` on ASCII input. */
  predicate IsAlnum(c: char) { IsLetter(c) || IsDigit(c) }

  /** The regular-expression class `\w` on ASCII input. */
  predicate IsWordChar(c: char) { IsAlnum(c) || c == '_' }

  /** `str.isspace`, which is also what `\s` matches in a `str` pattern:
      tab to carriage return, the four information separators, space, NEL,
      no-break space and the Unicode space separators. */
  predicate IsSpace(c: char) {
    || '\t' <= c <= '\r'
    || '\U{001C}' <= c <= ' '
    || c == '\U{0085}' || c == '\U{00A0}' || c == '\U{1680}'
    || '\U{2000}' <= c <= '\U{200A}'
    || c == '\U{2028}' || c == '\U{2029}' || c == '\U{202F}' || c == '\U{205F}'
    || c == '\U{3000}'
  }

  predicate AllDigits(s: string) { forall i :: 0 <= i < |s| ==> IsDigit(s[i]) }

  // ---------------------------------------------------------------------------
  // Case
  // ---------------------------------------------------------------------------

  function LowerChar(c: char): (r: char)
    ensures !IsUpper(r)
    ensures IsLetter(c) <==> IsLetter(r)
    ensures !IsUpper(c) ==> r == c
  {
    if IsUpper(c) then (c as int + 32) as char else c
  }

  function UpperChar(c: char): (r: char)
    ensures !IsLower(r)
    ensures IsLetter(c) <==> IsLetter(r)
    ensures !IsLower(c) ==> r == c
  {
    if IsLower(c) then (c as int - 32) as char else c
  }

  /** `str.lower`. */
  function Lower(s: string): (r: string) {
    seq(|s|, i requires 0 <= i < |s| => LowerChar(s[i]))
  }

  /** Equality under `re.IGNORECASE`. */
  predicate SameLetters(a: string, b: string) { Lower(a) == Lower(b) }

  /** `str.title`: a letter is upper-cased when it follows a character that is
      not a letter, and lower-cased when it follows a letter. */
  function Title(s: string): (r: string) {
    seq(|s|, i requires 0 <= i < |s| => TitleChar(s, i))
  }

  function TitleChar(s: string, i: nat): char
    requires i < |s|
  {
    if !IsLetter(s[i]) then s[i]
    else if i > 0 && IsLetter(s[i - 1]) then LowerChar(s[i])
    else UpperChar(s[i])
  }

  /** The characters of `t` from position `i` on are lower-case letters. */
  predicate LowerFrom(t: string, i: nat)
    decreases |t| - i
  {
    i >= |t| || (IsLower(t[i]) && LowerFrom(t, i + 1))
  }

  /** A word written the way the scraper stores tier names: one upper-case
      letter followed by lower-case letters. */
  predicate Capitalized(t: string) {
    |t| > 0 && IsUpper(t[0]) && LowerFrom(t, 1)
  }

  lemma {:induction false} LowerFromAt(t: string, i: nat, k: nat)
    requires LowerFrom(t, i) && i <= k < |t|
    ensures IsLower(t[k])
    decreases k - i
  {
    if i < k {
      LowerFromAt(t, i + 1, k);
    }
  }

  /** `n` is `t` lower-cased, from position `i` on. */
  predicate LowersFrom(t: string, n: string, i: nat)
    requires |t| == |n|
    decreases |t| - i
  {
    i >= |t| || (LowerChar(t[i]) == n[i] && LowersFrom(t, n, i + 1))
  }

  lemma {:induction false} LowersFromAt(t: string, n: string, i: nat, k: nat)
    requires |t| == |n| && LowersFrom(t, n, i) && i <= k < |t|
    ensures LowerChar(t[k]) == n[k]
    decreases k - i
  {
    if i < k {
      LowersFromAt(t, n, i + 1, k);
    }
  }

  /** A character-by-character check that `str.lower` turns `t` into `n`. */
  lemma LowerOfSpelling(t: string, n: string)
    requires |t| == |n| && LowersFrom(t, n, 0)
    ensures Lower(t) == n
  {
    forall k | 0 <= k < |t|
      ensures Lower(t)[k] == n[k]
    {
      LowersFromAt(t, n, 0, k);
    }
  }

  /** Whatever the case of the matched text, `text.lower().title()` gives back
      the capitalized word it matched. */
  lemma TitleOfLowerIsCapitalized(x: string, t: string)
    requires Capitalized(t) && SameLetters(x, t)
    ensures Title(Lower(x)) == t
  {
    var lx := Lower(x);
    assert |lx| == |t|;
    forall k | 0 <= k < |t|
      ensures Title(lx)[k] == t[k]
    {
      assert lx[k] == Lower(t)[k] == LowerChar(t[k]);
      if k > 0 {
        LowerFromAt(t, 1, k);
        if k > 1 {
          LowerFromAt(t, 1, k - 1);
        }
        assert lx[k - 1] == Lower(t)[k - 1] == LowerChar(t[k - 1]);
      }
    }
  }

  // ---------------------------------------------------------------------------
  // Runs of characters
  // ---------------------------------------------------------------------------

  /** The end of the whitespace that starts at `i`. */
  function SpacesEnd(s: string, i: nat): (j: nat)
    requires i <= |s|
    ensures i <= j <= |s|
    ensures forall k :: i <= k < j ==> IsSpace(s[k])
    ensures j == |s| || !IsSpace(s[j])
    decreases |s| - i
  {
    if i < |s| && IsSpace(s[i]) then SpacesEnd(s, i + 1) else i
  }

  /** The start of the whitespace that ends at `j`. */
  function SpacesStart(s: string, j: nat): (i: nat)
    requires j <= |s|
    ensures i <= j
    ensures forall k :: i <= k < j ==> IsSpace(s[k])
    ensures i == 0 || !IsSpace(s[i - 1])
  {
    if j > 0 && IsSpace(s[j - 1]) then SpacesStart(s, j - 1) else j
  }

  // ---------------------------------------------------------------------------
  // Numbers
  // ---------------------------------------------------------------------------

  function DigitValue(c: char): nat {
    if IsDigit(c) then c as int - '0' as int else 0
  }

  function DigitChar(d: nat): (c: char)
    requires d < 10
    ensures IsDigit(c) && DigitValue(c) == d
  {
    ('0' as int + d) as char
  }

  /** `int(digits)` for a string of decimal digits (leading zeros allowed). */
  function NatValue(digits: string): nat {
    if digits == [] then 0
    else 10 * NatValue(digits[..|digits| - 1]) + DigitValue(digits[|digits| - 1])
  }

  /** `str(n)` for a non-negative integer. */
  function ShowNat(n: nat): (r: string)
    ensures |r| > 0 && AllDigits(r)
    ensures r[0] == '0' ==> n == 0
  {
    if n < 10 then [DigitChar(n)] else ShowNat(n / 10) + [DigitChar(n % 10)]
  }

  /** `int(str(n)) == n`. */
  lemma {:induction false} NatValueOfShowNat(n: nat)
    ensures NatValue(ShowNat(n)) == n
  {
    if n >= 10 {
      var r := ShowNat(n);
      assert r[..|r| - 1] == ShowNat(n / 10);
      NatValueOfShowNat(n / 10);
    }
  }

  // ---------------------------------------------------------------------------
  // Whole-string operations
  // ---------------------------------------------------------------------------

  /** `str.strip()`: the text with leading and trailing whitespace removed. */
  function Strip(s: string): (r: string)
    ensures r == [] || (!IsSpace(r[0]) && !IsSpace(r[|r| - 1]))
    ensures var k := SpacesEnd(s, 0);
            && k + |r| <= |s| && r == s[k..k + |r|]
            && (forall j :: 0 <= j < k ==> IsSpace(s[j]))
            && (forall j :: k + |r| <= j < |s| ==> IsSpace(s[j]))
  {
    var a := SpacesEnd(s, 0);
    var b := if a == |s| then a else SpacesStart(s, |s|);
    assert a <= b;
    s[a..b]
  }

  /** `''.join(c for c in s if p(c))`. */
  function Keep(s: string, p: char -> bool): (r: string)
    ensures |r| <= |s|
    ensures forall i :: 0 <= i < |r| ==> p(r[i]) && r[i] in s
    ensures (forall i :: 0 <= i < |s| ==> p(s[i])) ==> r == s
  {
    if s == [] then []
    else (if p(s[0]) then [s[0]] else []) + Keep(s[1..], p)
  }

  /** `s.split(c)[0]`: everything before the first `c`, or all of `s`. */
  function Before(s: string, c: char): (r: string)
    ensures r <= s && c !in r
    ensures |r| < |s| <==> c in s
    ensures |r| < |s| ==> s[|r|] == c
  {
    if s == [] then []
    else if s[0] == c then []
    else [s[0]] + Before(s[1..], c)
  }

  /** `s.split(c, 1)[1]` when `c` occurs: everything after the first `c`. */
  function After(s: string, c: char): (r: string)
    requires c in s
    ensures Before(s, c) + [c] + r == s
  {
    s[|Before(s, c)| + 1..]
  }
}
