/** The string operations the engine relies on: trimming, case mapping, substring search,
    and the numeric suffix of a generated identifier.  Case mapping covers ASCII letters. */
module Text {

  predicate IsSpace(c: char) {
    || c == ' ' || '\t' <= c <= '\r' || c == '\U{85}' || c == '\U{A0}' || c == '\U{1680}'
    || '\U{2000}' <= c <= '\U{200A}' || c == '\U{2028}' || c == '\U{2029}' || c == '\U{202F}'
    || c == '\U{205F}' || c == '\U{3000}'
  }

  predicate Trimmed(s: string) {
    s == "" || (!IsSpace(s[0]) && !IsSpace(s[|s| - 1]))
  }

  function TrimLeft(s: string): (r: string)
    ensures r == "" || !IsSpace(r[0])
    ensures s != "" && !IsSpace(s[|s| - 1]) ==> r != "" && r[|r| - 1] == s[|s| - 1]
  {
    if s != "" && IsSpace(s[0]) then TrimLeft(s[1..]) else s
  }

  function TrimRight(s: string): (r: string)
    ensures r == "" || !IsSpace(r[|r| - 1])
    ensures s != "" && !IsSpace(s[0]) ==> r != "" && r[0] == s[0]
  {
    if s != "" && IsSpace(s[|s| - 1]) then TrimRight(s[..|s| - 1]) else s
  }

  /** Strips white space at both ends; a trimmed string is a fixed point. */
  function TrimSpace(s: string): (r: string)
    ensures Trimmed(r)
    ensures Trimmed(s) ==> r == s
  {
    TrimRight(TrimLeft(s))
  }

  function LowerChar(c: char): char {
    if 'A' <= c <= 'Z' then (c as int + 32) as char else c
  }

  function UpperChar(c: char): char {
    if 'a' <= c <= 'z' then (c as int - 32) as char else c
  }

  function ToLower(s: string): (r: string)
    ensures |r| == |s|
    ensures Trimmed(s) ==> Trimmed(r)
  {
    seq(|s|, i requires 0 <= i < |s| => LowerChar(s[i]))
  }

  function ToUpper(s: string): (r: string)
    ensures |r| == |s|
    ensures Trimmed(s) ==> Trimmed(r)
  {
    seq(|s|, i requires 0 <= i < |s| => UpperChar(s[i]))
  }

  predicate EqualFold(s: string, t: string) {
    ToLower(s) == ToLower(t)
  }

  predicate Contains(s: string, part: string) {
    exists i | 0 <= i <= |s| :: part <= s[i..]
  }

  /** Upper-cased and trimmed, as symbols and order sides are stored. */
  function UpperTrim(s: string): (r: string)
    ensures Trimmed(r)
    ensures UpperTrimmed(r)
  {
    var r := ToUpper(TrimSpace(s));
    assert ToUpper(r) == r;
    r
  }

  predicate UpperTrimmed(s: string) {
    Trimmed(s) && ToUpper(s) == s
  }

  /** Lower-cased and trimmed, as position sides are stored. */
  function LowerTrim(s: string): (r: string)
    ensures Trimmed(r)
    ensures LowerTrimmed(r)
  {
    var r := ToLower(TrimSpace(s));
    assert ToLower(r) == r;
    r
  }

  predicate LowerTrimmed(s: string) {
    Trimmed(s) && ToLower(s) == s
  }

  // ---- Numeric suffixes of generated identifiers ----

  function Digit(d: nat): char
    requires d < 10
  {
    (d + '0' as int) as char
  }

  predicate IsDigit(c: char) {
    '0' <= c <= '9'
  }

  function Decimal(n: nat): string {
    if n < 10 then [Digit(n)] else Decimal(n / 10) + [Digit(n % 10)]
  }

  /** Decimal text padded with zeros on the left to at least `width` characters. */
  function Padded(n: nat, width: nat): string {
    var digits := Decimal(n);
    seq(if |digits| < width then width - |digits| else 0, _ => '0') + digits
  }

  predicate AllDigits(s: string) {
    forall i | 0 <= i < |s| :: IsDigit(s[i])
  }

  function DigitsValue(s: string): nat
    requires AllDigits(s)
  {
    if s == "" then 0 else 10 * DigitsValue(s[..|s| - 1]) + (s[|s| - 1] as int - '0' as int)
  }

  /** The number read from the text after an identifier prefix: an optional sign and digits.
      Text that is not a number, or a negative number, reads as zero. */
  function ParseSuffix(s: string): nat {
    var body := if s != "" && s[0] == '+' then s[1..] else s;
    if body != "" && AllDigits(body) then DigitsValue(body) else 0
  }

  function SequenceAfter(id: string, prefix: string): nat
    requires prefix <= id
  {
    ParseSuffix(id[|prefix|..])
  }

  lemma {:induction false} DecimalReadsBack(n: nat)
    ensures Decimal(n) != "" && AllDigits(Decimal(n)) && DigitsValue(Decimal(n)) == n
  {
    if n >= 10 {
      DecimalReadsBack(n / 10);
      assert Decimal(n)[..|Decimal(n)| - 1] == Decimal(n / 10);
    }
  }

  lemma {:induction false} LeadingZeros(k: nat, s: string)
    requires AllDigits(s)
    ensures AllDigits(seq(k, _ => '0') + s) && DigitsValue(seq(k, _ => '0') + s) == DigitsValue(s)
  {
    var zeros := seq(k, _ => '0');
    if s == "" {
      assert zeros + s == zeros;
      if k > 0 {
        LeadingZeros(k - 1, s);
        assert zeros[..k - 1] == seq(k - 1, _ => '0') + s;
      }
    } else {
      LeadingZeros(k, s[..|s| - 1]);
      assert (zeros + s)[..|zeros + s| - 1] == zeros + s[..|s| - 1];
    }
  }

  /** A generated identifier gives back the number it was made from. */
  lemma SequenceReadsBack(prefix: string, n: nat, width: nat)
    ensures SequenceAfter(prefix + Padded(n, width), prefix) == n
    ensures Padded(n, width) != "" && AllDigits(Padded(n, width))
  {
    hide Decimal, DigitsValue;
    var digits := Decimal(n);
    DecimalReadsBack(n);
    LeadingZeros(if |digits| < width then width - |digits| else 0, digits);
    assert (prefix + Padded(n, width))[|prefix|..] == Padded(n, width);
  }

  function TenTo(k: nat): nat {
    if k == 0 then 1 else 10 * TenTo(k - 1)
  }

  lemma {:induction false} DecimalFits(n: nat, k: nat)
    requires k > 0 && n < TenTo(k)
    ensures |Decimal(n)| <= k
  {
    if n >= 10 {
      DecimalFits(n / 10, k - 1);
    }
  }

  /** A number of no more digits than the width is padded to just the width. */
  lemma PaddedHasWidth(n: nat, width: nat)
    requires width > 0 && n < TenTo(width)
    ensures |Padded(n, width)| == width
  {
    DecimalFits(n, width);
  }

  /** The suffix is the number in digits, with or without a plus sign. */
  predicate ReadsAs(suffix: string, n: nat) {
    || (suffix != "" && AllDigits(suffix) && DigitsValue(suffix) == n)
    || (|suffix| > 1 && suffix[0] == '+' && AllDigits(suffix[1..]) && DigitsValue(suffix[1..]) == n)
  }

  /** A suffix counts for a positive number exactly when it is that number. */
  lemma SuffixIsNumber(suffix: string, n: nat)
    requires n > 0
    ensures ParseSuffix(suffix) == n <==> ReadsAs(suffix, n)
  {
    hide DigitsValue;
    if suffix != "" && suffix[0] == '+' {
      assert !IsDigit(suffix[0]);
    }
  }

  // ---- Trimming and case ----

  lemma {:induction false} LeftTrimCommutes(s: string)
    ensures TrimLeft(ToLower(s)) == ToLower(TrimLeft(s))
  {
    if s != "" && IsSpace(s[0]) {
      assert ToLower(s)[1..] == ToLower(s[1..]);
      LeftTrimCommutes(s[1..]);
    }
  }

  lemma {:induction false} RightTrimCommutes(s: string)
    ensures TrimRight(ToLower(s)) == ToLower(TrimRight(s))
  {
    if s != "" && IsSpace(s[|s| - 1]) {
      assert ToLower(s)[..|s| - 1] == ToLower(s[..|s| - 1]);
      RightTrimCommutes(s[..|s| - 1]);
    }
  }

  /** Texts equal up to case are still equal up to case when both are trimmed. */
  lemma EqualFoldTrims(s: string, t: string)
    requires EqualFold(s, t)
    ensures LowerTrim(s) == LowerTrim(t)
  {
    LeftTrimCommutes(s);
    LeftTrimCommutes(t);
    RightTrimCommutes(TrimLeft(s));
    RightTrimCommutes(TrimLeft(t));
  }

  // ---- What trimming and folding come to ----

  /** The same character, or the two cases of one ASCII letter. */
  predicate SameLetter(c: char, d: char) {
    || c == d
    || ('A' <= c <= 'Z' && d as int - c as int == 32)
    || ('A' <= d <= 'Z' && c as int - d as int == 32)
  }

  /** The same text up to the case of its letters. */
  predicate SameText(s: string, t: string) {
    |s| == |t| && forall i | 0 <= i < |s| :: SameLetter(s[i], t[i])
  }

  predicate Blanks(s: string) {
    forall i | 0 <= i < |s| :: IsSpace(s[i])
  }

  /** The text says the word in any letter case, with nothing but white space around it. */
  predicate Says(s: string, word: string) {
    SameText(TrimSpace(s), word)
  }

  /** Trimming takes white space off the two ends, all of it, and nothing else. */
  lemma TrimSpaceStrips(s: string)
    ensures exists a: string, b: string :: s == a + TrimSpace(s) + b && Blanks(a) && Blanks(b)
  {
    var a, t := TrimLeftStrips(s);
    var b := TrimRightStrips(t);
    assert s == a + TrimSpace(s) + b;
  }

  lemma {:induction false} TrimLeftStrips(s: string) returns (a: string, rest: string)
    ensures rest == TrimLeft(s) && s == a + rest && Blanks(a)
  {
    rest := TrimLeft(s);
    if s != "" && IsSpace(s[0]) {
      var shorter, _ := TrimLeftStrips(s[1..]);
      a := [s[0]] + shorter;
    } else {
      a := "";
    }
  }

  lemma {:induction false} TrimRightStrips(s: string) returns (b: string)
    ensures s == TrimRight(s) + b && Blanks(b)
  {
    if s != "" && IsSpace(s[|s| - 1]) {
      var shorter := TrimRightStrips(s[..|s| - 1]);
      b := shorter + [s[|s| - 1]];
    } else {
      b := "";
    }
  }

  /** Folding and upper-casing compare texts up to the case of their letters. */
  lemma FoldingIsSameText(s: string, t: string)
    ensures EqualFold(s, t) <==> SameText(s, t)
    ensures ToUpper(s) == ToUpper(t) <==> SameText(s, t)
  {
    if SameText(s, t) {
      assert forall i | 0 <= i < |s| :: SameLetter(s[i], t[i]);
      assert ToLower(s) == ToLower(t) && ToUpper(s) == ToUpper(t);
    }
    if ToLower(s) == ToLower(t) {
      forall i | 0 <= i < |s| ensures SameLetter(s[i], t[i]) {
        assert ToLower(s)[i] == ToLower(t)[i];
      }
    }
    if ToUpper(s) == ToUpper(t) {
      forall i | 0 <= i < |s| ensures SameLetter(s[i], t[i]) {
        assert ToUpper(s)[i] == ToUpper(t)[i];
      }
    }
  }

  /** A lower-cased trimmed text is a given lower-case word exactly when the text says it. */
  lemma LowerTrimSays(s: string, word: string)
    requires ToLower(word) == word
    ensures LowerTrim(s) == word <==> Says(s, word)
  {
    FoldingIsSameText(TrimSpace(s), word);
  }

  lemma BlankTrims(s: string)
    ensures TrimSpace(s) == "" <==> Blanks(s)
  {
    hide TrimLeft, TrimRight;
    TrimSpaceStrips(s);
    var a: string, b: string :| s == a + TrimSpace(s) + b && Blanks(a) && Blanks(b);
    if TrimSpace(s) != "" {
      assert s[|a|] == TrimSpace(s)[0];
    }
  }

  lemma TrimmedAsIs(s: string)
    requires Trimmed(s)
    ensures TrimSpace(s) == s
  {
  }
}
