/**
 * The JavaScript string primitives the suite relies on, over `seq<char>`:
 * `includes`, `startsWith`, `trim`, the `\d` character class, decimal
 * rendering of numbers (template literals, `toString`) and decimal reading
 * of a digit run (`parseInt`).
 */
module Text {

  /** The `\d` class of a JavaScript regular expression: ASCII 0-9. */
  predicate IsDigit(c: char) {
    '0' <= c <= '9'
  }

  function DigitValue(c: char): (d: nat)
    ensures d < 10
  {
    if IsDigit(c) then (c as int) - ('0' as int) else 0
  }

  function DigitChar(d: nat): (c: char)
    requires d < 10
    ensures IsDigit(c) && DigitValue(c) == d
  {
    (('0' as int) + d) as char
  }

  /** `s.startsWith(prefix)`. */
  predicate StartsWith(s: string, prefix: string) {
    |prefix| <= |s| && s[..|prefix|] == prefix
  }

  /** `s.includes(sub)`: `sub` occurs in `s` at some position. */
  predicate Contains(s: string, sub: string)
    decreases |s|
  {
    StartsWith(s, sub) || (|s| > 0 && Contains(s[1..], sub))
  }

  /** An occurrence at position `i` makes `includes` true. */
  lemma {:induction false} ContainsAt(s: string, sub: string, i: nat)
    requires i + |sub| <= |s| && s[i..i + |sub|] == sub
    ensures Contains(s, sub)
    decreases i
  {
    if i > 0 {
      assert s[1..][i - 1..i - 1 + |sub|] == s[i..i + |sub|];
      ContainsAt(s[1..], sub, i - 1);
    }
  }

  /** An `includes` hit has a position. */
  lemma {:induction false} ContainsPosition(s: string, sub: string) returns (i: nat)
    requires Contains(s, sub)
    ensures i + |sub| <= |s| && s[i..i + |sub|] == sub
    decreases |s|
  {
    if StartsWith(s, sub) {
      i := 0;
    } else {
      var j := ContainsPosition(s[1..], sub);
      assert s[1..][j..j + |sub|] == s[j + 1..j + 1 + |sub|];
      i := j + 1;
    }
  }

  /** If `s` contains `sub`, it contains every prefix of `sub`. */
  lemma {:induction false} ContainsPrefixOfNeedle(s: string, sub: string, p: string)
    requires Contains(s, sub) && StartsWith(sub, p)
    ensures Contains(s, p)
    decreases |s|
  {
    if StartsWith(s, sub) {
      assert s[..|p|] == s[..|sub|][..|p|];
    } else {
      ContainsPrefixOfNeedle(s[1..], sub, p);
    }
  }

  /** A text lacking one of the characters of `sub` does not contain `sub`. */
  lemma {:induction false} NotContainsMissingChar(s: string, sub: string, c: char)
    requires c in sub && c !in s
    ensures !Contains(s, sub)
    decreases |s|
  {
    if |sub| <= |s| {
      assert forall x | x in s[..|sub|] :: x in s;
    }
    if |s| > 0 {
      assert s == [s[0]] + s[1..];
      NotContainsMissingChar(s[1..], sub, c);
    }
  }

  /**
   * The characters `String.prototype.trim` removes: the ECMAScript
   * WhiteSpace and LineTerminator code points.
   */
  predicate IsWhitespace(c: char) {
    var n := c as int;
    n == 0x09 || n == 0x0A || n == 0x0B || n == 0x0C || n == 0x0D || n == 0x20 ||
    n == 0xA0 || n == 0x1680 || (0x2000 <= n <= 0x200A) || n == 0x2028 ||
    n == 0x2029 || n == 0x202F || n == 0x205F || n == 0x3000 || n == 0xFEFF
  }

  /** `s` with its leading whitespace removed. */
  function TrimStart(s: string): (r: string)
    ensures |r| <= |s| && r == s[|s| - |r|..]
    ensures forall i | 0 <= i < |s| - |r| :: IsWhitespace(s[i])
    ensures r != [] ==> !IsWhitespace(r[0])
    decreases |s|
  {
    if s != [] && IsWhitespace(s[0]) then TrimStart(s[1..]) else s
  }

  /** `s` with its trailing whitespace removed. */
  function TrimEnd(s: string): (r: string)
    ensures |r| <= |s| && r == s[..|r|]
    ensures forall i | |r| <= i < |s| :: IsWhitespace(s[i])
    ensures r != [] ==> !IsWhitespace(r[|r| - 1])
    decreases |s|
  {
    if s != [] && IsWhitespace(s[|s| - 1]) then TrimEnd(s[..|s| - 1]) else s
  }

  /** `s.trim()`. */
  function Trim(s: string): (r: string)
    ensures |r| <= |s|
  {
    TrimEnd(TrimStart(s))
  }

  /** The trimmed text is a contiguous part of the text. */
  lemma TrimContained(s: string)
    ensures Contains(s, Trim(s))
  {
    var t := TrimStart(s);
    var r := TrimEnd(t);
    var k := |s| - |t|;
    assert t == s[k..];
    assert r == s[k..k + |r|];
    ContainsAt(s, r, k);
  }

  /** The trimmed text neither starts nor ends with whitespace. */
  lemma TrimEnds(s: string)
    ensures Trim(s) != [] ==> !IsWhitespace(Trim(s)[0]) && !IsWhitespace(Trim(s)[|Trim(s)| - 1])
  {
    var t := TrimStart(s);
    var r := TrimEnd(t);
    if r != [] {
      assert r[0] == t[0];
    }
  }

  /** A text without whitespace at either end is kept whole. */
  lemma TrimKeeps(s: string)
    ensures (s == [] || (!IsWhitespace(s[0]) && !IsWhitespace(s[|s| - 1]))) ==> Trim(s) == s
  {
    if s != [] && !IsWhitespace(s[0]) && !IsWhitespace(s[|s| - 1]) {
      assert TrimStart(s) == s;
    }
  }

  /** A text of whitespace only trims to the empty text. */
  lemma {:induction false} TrimAllWhitespace(s: string)
    ensures (forall i | 0 <= i < |s| :: IsWhitespace(s[i])) ==> TrimStart(s) == [] && Trim(s) == []
    decreases |s|
  {
    if s != [] && (forall i | 0 <= i < |s| :: IsWhitespace(s[i])) {
      assert forall i | 0 <= i < |s[1..]| :: s[1..][i] == s[i + 1];
      TrimAllWhitespace(s[1..]);
    }
  }

  /**
   * `r` is `s` with some leading and some trailing whitespace cut off: the
   * part of `s` starting at `k`, with only whitespace before and after it.
   */
  predicate StripsWhitespace(s: string, r: string) {
    exists k | 0 <= k <= |s| - |r| :: StripsWhitespaceAt(s, r, k)
  }

  /** `r` is the part of `s` starting at `k`, with only whitespace around it. */
  predicate StripsWhitespaceAt(s: string, r: string, k: nat)
    requires k <= |s| - |r|
  {
    r == s[k..k + |r|] &&
    (forall i | 0 <= i < k :: IsWhitespace(s[i])) &&
    (forall i | k + |r| <= i < |s| :: IsWhitespace(s[i]))
  }

  /** Trimming removes only whitespace, and only at the two ends. */
  lemma TrimStrips(s: string)
    ensures StripsWhitespace(s, Trim(s))
  {
    var t := TrimStart(s);
    var r := TrimEnd(t);
    PrefixOfSuffixStrips(s, t, r);
  }

  /**
   * Cutting whitespace off the front of `s`, giving `t`, and then off the
   * back of `t`, giving `r`, leaves `r` in `s` with only whitespace around it.
   */
  lemma PrefixOfSuffixStrips(s: string, t: string, r: string)
    requires |t| <= |s| && t == s[|s| - |t|..]
    requires forall i | 0 <= i < |s| - |t| :: IsWhitespace(s[i])
    requires |r| <= |t| && r == t[..|r|]
    requires forall i | |r| <= i < |t| :: IsWhitespace(t[i])
    ensures StripsWhitespaceAt(s, r, |s| - |t|)
  {
    var k := |s| - |t|;
    forall i | k + |r| <= i < |s|
      ensures IsWhitespace(s[i])
    {
      assert s[i] == t[i - k];
    }
  }

  /**
   * What `trim` promises: the result is what is left of the text once the
   * whitespace at its two ends is cut off, so it is a contiguous part of the
   * text that neither starts nor ends with whitespace; a text without
   * whitespace at either end is kept whole, and a text of whitespace only
   * becomes empty.
   */
  lemma TrimSpec(s: string)
    ensures StripsWhitespace(s, Trim(s))
    ensures Contains(s, Trim(s))
    ensures Trim(s) != [] ==> !IsWhitespace(Trim(s)[0]) && !IsWhitespace(Trim(s)[|Trim(s)| - 1])
    ensures (s == [] || (!IsWhitespace(s[0]) && !IsWhitespace(s[|s| - 1]))) ==> Trim(s) == s
    ensures (forall i | 0 <= i < |s| :: IsWhitespace(s[i])) ==> Trim(s) == []
  {
    TrimStrips(s);
    TrimContained(s);
    TrimEnds(s);
    TrimKeeps(s);
    TrimAllWhitespace(s);
  }

  /** Trimming twice is the same as trimming once. */
  lemma TrimIdempotent(s: string)
    ensures Trim(Trim(s)) == Trim(s)
  {
    TrimSpec(s);
    TrimSpec(Trim(s));
  }

  /** The characters kept by `replace(/[^\d.]/g, '')`. */
  predicate IsNumberChar(c: char) {
    IsDigit(c) || c == '.'
  }

  /** `s.replace(/[^\d.]/g, '')`: the digits and dots of `s`, in order. */
  function KeepNumberChars(s: string): (r: string)
    ensures |r| <= |s|
    ensures forall i | 0 <= i < |r| :: IsNumberChar(r[i])
    decreases |s|
  {
    if s == [] then []
    else (if IsNumberChar(s[0]) then [s[0]] else []) + KeepNumberChars(s[1..])
  }

  /** The filter works character by character, so it distributes over concatenation. */
  lemma {:induction false} KeepNumberCharsAppend(a: string, b: string)
    ensures KeepNumberChars(a + b) == KeepNumberChars(a) + KeepNumberChars(b)
    decreases |a|
  {
    if a == [] {
      assert a + b == b;
    } else {
      assert (a + b)[0] == a[0];
      assert (a + b)[1..] == a[1..] + b;
      KeepNumberCharsAppend(a[1..], b);
    }
  }

  /** One character is kept if it is a digit or a dot, and dropped otherwise. */
  lemma KeepNumberCharsChar(c: char)
    ensures IsNumberChar(c) ==> KeepNumberChars([c]) == [c]
    ensures !IsNumberChar(c) ==> KeepNumberChars([c]) == []
  {
    assert [c][1..] == [];
  }

  /** A character other than a digit or a dot is dropped wherever it occurs. */
  lemma KeepNumberCharsDrops(before: string, c: char, after: string)
    requires !IsNumberChar(c)
    ensures KeepNumberChars(before + [c] + after) == KeepNumberChars(before) + KeepNumberChars(after)
  {
    var bc := before + [c];
    KeepNumberCharsAppend(bc, after);
    KeepNumberCharsAppend(before, [c]);
    KeepNumberCharsChar(c);
    assert KeepNumberChars(bc) == KeepNumberChars(before);
  }

  /**
   * Every digit and dot of the text is kept as often as it occurs, and every
   * other character is gone.
   */
  lemma {:induction false} KeepNumberCharsCounts(s: string)
    ensures forall c :: multiset(KeepNumberChars(s))[c] == (if IsNumberChar(c) then multiset(s)[c] else 0)
    decreases |s|
  {
    if s != [] {
      KeepNumberCharsCounts(s[1..]);
      assert s == [s[0]] + s[1..];
      assert multiset(s) == multiset([s[0]]) + multiset(s[1..]);
    }
  }

  /** A text made of digits and dots only is left as it is. */
  lemma {:induction false} KeepNumberCharsOfNumber(s: string)
    requires forall i | 0 <= i < |s| :: IsNumberChar(s[i])
    ensures KeepNumberChars(s) == s
    decreases |s|
  {
    if s != [] {
      KeepNumberCharsOfNumber(s[1..]);
    }
  }

  /** Filtering an already filtered text changes nothing. */
  lemma KeepNumberCharsIdempotent(s: string)
    ensures KeepNumberChars(KeepNumberChars(s)) == KeepNumberChars(s)
  {
    KeepNumberCharsOfNumber(KeepNumberChars(s));
  }

  /** The number a run of decimal digits denotes (what `parseInt` reads). */
  function DecimalValue(ds: string): nat
    decreases |ds|
  {
    if ds == [] then 0 else DecimalValue(ds[..|ds| - 1]) * 10 + DigitValue(ds[|ds| - 1])
  }

  /** Leading zeros do not change the value: `parseInt("007")` is 7. */
  lemma {:induction false} DecimalValueLeadingZero(ds: string)
    ensures DecimalValue("0" + ds) == DecimalValue(ds)
    decreases |ds|
  {
    if ds != [] {
      assert ("0" + ds)[..|"0" + ds| - 1] == "0" + ds[..|ds| - 1];
      DecimalValueLeadingZero(ds[..|ds| - 1]);
    }
  }

  /** The decimal rendering of a natural number (`${n}`, `n.toString()`). */
  function NatToString(n: nat): (s: string)
    ensures s != [] && forall i | 0 <= i < |s| :: IsDigit(s[i])
    decreases n
  {
    if n < 10 then [DigitChar(n)] else NatToString(n / 10) + [DigitChar(n % 10)]
  }

  /** Reading back a rendered number gives the number. */
  lemma {:induction false} DecimalValueOfNatToString(n: nat)
    ensures DecimalValue(NatToString(n)) == n
    decreases n
  {
    if n >= 10 {
      var s := NatToString(n / 10);
      assert (s + [DigitChar(n % 10)])[..|s|] == s;
      DecimalValueOfNatToString(n / 10);
    }
  }

  /** `i.toString()` for an integer-valued number. */
  function IntToString(i: int): (s: string)
    ensures s != []
    ensures i < 0 <==> s[0] == '-'
  {
    if i < 0 then "-" + NatToString(-i) else NatToString(i)
  }
}
