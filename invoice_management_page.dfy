/**
 * The two text routines of the invoice-management page object: reading the
 * invoice count out of the count label, and cleaning up the texts of the
 * invoice detail view. The texts are what the browser's `textContent`
 * returned (`None` for null).
 */
module InvoiceManagementPage {
  import opened Wrappers
  import opened Text

  /** `s` from its first digit on (empty when `s` has no digit). */
  function SkipNonDigits(s: string): (r: string)
    ensures |r| <= |s| && r == s[|s| - |r|..]
    ensures forall i | 0 <= i < |s| - |r| :: !IsDigit(s[i])
    ensures r != [] ==> IsDigit(r[0])
    decreases |s|
  {
    if s == [] || IsDigit(s[0]) then s else SkipNonDigits(s[1..])
  }

  /** The longest prefix of `s` made of digits. */
  function LeadingDigits(s: string): (r: string)
    ensures |r| <= |s| && r == s[..|r|]
    ensures forall i | 0 <= i < |r| :: IsDigit(r[i])
    ensures |r| < |s| ==> !IsDigit(s[|r|])
    decreases |s|
  {
    if s != [] && IsDigit(s[0]) then [s[0]] + LeadingDigits(s[1..]) else []
  }

  /** `s.match(/\d+/)`: the first maximal run of digits, if any. */
  function FirstDigitRun(s: string): Option<string> {
    var t := SkipNonDigits(s);
    if t == [] then None else Some(LeadingDigits(t))
  }

  /**
   * `getInvoiceCount`: 0 for a missing or empty label, otherwise the value
   * of the label's first run of digits, or 0 when it has none.
   */
  function GetInvoiceCount(countText: Option<string>): nat {
    if !TruthyText(countText) then 0
    else match FirstDigitRun(countText.value)
      case None => 0
      case Some(digits) => DecimalValue(digits)
  }

  /** The match finds nothing exactly in a text without digits. */
  lemma FirstDigitRunNone(s: string)
    ensures FirstDigitRun(s).None? <==> forall i | 0 <= i < |s| :: !IsDigit(s[i])
  {
    var t := SkipNonDigits(s);
    if t != [] {
      assert s[|s| - |t|] == t[0];
    }
  }

  /** Where the match starts: the position of the first digit (the length of `s` when there is none). */
  function DigitRunStart(s: string): nat {
    |s| - |SkipNonDigits(s)|
  }

  /**
   * What the match finds otherwise: a non-empty run of digits, found in
   * the text at `DigitRunStart`.
   */
  lemma FirstDigitRunSome(s: string)
    requires FirstDigitRun(s).Some?
    ensures var d := FirstDigitRun(s).value;
      d != [] && (forall i | 0 <= i < |d| :: IsDigit(d[i])) &&
      DigitRunStart(s) + |d| <= |s| && s[DigitRunStart(s)..DigitRunStart(s) + |d|] == d
  {
    var t := SkipNonDigits(s);
    var d := LeadingDigits(t);
    assert IsDigit(t[0]);
    SuffixSlice(s, t, d);
  }

  /** The run is the first one and is maximal: no digit before it, and no digit right after it. */
  lemma FirstDigitRunBounds(s: string)
    requires FirstDigitRun(s).Some?
    ensures forall i | 0 <= i < DigitRunStart(s) :: !IsDigit(s[i])
    ensures DigitRunStart(s) + |FirstDigitRun(s).value| < |s| ==>
      !IsDigit(s[DigitRunStart(s) + |FirstDigitRun(s).value|])
  {
    var t := SkipNonDigits(s);
    var d := LeadingDigits(t);
    SuffixSlice(s, t, d);
  }

  /** A prefix `d` of the suffix `t` of `s` sits in `s` where `t` starts. */
  lemma SuffixSlice(s: string, t: string, d: string)
    requires |t| <= |s| && t == s[|s| - |t|..]
    requires |d| <= |t| && d == t[..|d|]
    ensures |s| - |t| + |d| <= |s| && s[|s| - |t|..|s| - |t| + |d|] == d
    ensures |d| < |t| ==> s[|s| - |t| + |d|] == t[|d|]
  {
    var start := |s| - |t|;
    forall i | 0 <= i < |d|
      ensures s[start..start + |d|][i] == d[i]
    {
      assert d[i] == t[i] == s[start + i];
    }
  }

  /** A missing or empty label, or a label without any digit, counts 0. */
  lemma NoDigitNoCount(countText: Option<string>)
    ensures !TruthyText(countText) ==> GetInvoiceCount(countText) == 0
    ensures countText.Some? && (forall i | 0 <= i < |countText.value| :: !IsDigit(countText.value[i])) ==>
      GetInvoiceCount(countText) == 0
  {
    if countText.Some? {
      FirstDigitRunNone(countText.value);
    }
  }

  /** Digits right at the start of a text are skipped over as a whole prefix. */
  lemma {:induction false} SkipNonDigitsAppend(prefix: string, rest: string)
    requires forall i | 0 <= i < |prefix| :: !IsDigit(prefix[i])
    ensures SkipNonDigits(prefix + rest) == SkipNonDigits(rest)
    decreases |prefix|
  {
    if prefix == [] {
      assert prefix + rest == rest;
    } else {
      assert (prefix + rest)[1..] == prefix[1..] + rest;
      SkipNonDigitsAppend(prefix[1..], rest);
    }
  }

  /** A run of digits followed by a non-digit (or nothing) is read up to that non-digit. */
  lemma {:induction false} LeadingDigitsOfRun(digits: string, rest: string)
    requires forall i | 0 <= i < |digits| :: IsDigit(digits[i])
    requires rest == [] || !IsDigit(rest[0])
    ensures LeadingDigits(digits + rest) == digits
    decreases |digits|
  {
    if digits == [] {
      assert digits + rest == rest;
    } else {
      assert (digits + rest)[1..] == digits[1..] + rest;
      LeadingDigitsOfRun(digits[1..], rest);
    }
  }

  /** A digit run after a text without digits, and before a non-digit, is the run the match finds. */
  lemma FirstDigitRunAfter(prefix: string, digits: string, rest: string)
    requires forall i | 0 <= i < |prefix| :: !IsDigit(prefix[i])
    requires digits != [] && forall i | 0 <= i < |digits| :: IsDigit(digits[i])
    requires rest == [] || !IsDigit(rest[0])
    ensures FirstDigitRun(prefix + digits + rest) == Some(digits)
  {
    var tail := digits + rest;
    assert prefix + digits + rest == prefix + tail;
    SkipNonDigitsAppend(prefix, tail);
    assert tail[0] == digits[0];
    LeadingDigitsOfRun(digits, rest);
  }

  /**
   * The count read back: a label "<text without digits><n><text not starting
   * with a digit>" counts `n`, whatever follows.
   */
  lemma CountOfRenderedNumber(prefix: string, n: nat, rest: string)
    requires forall i | 0 <= i < |prefix| :: !IsDigit(prefix[i])
    requires rest == [] || !IsDigit(rest[0])
    ensures GetInvoiceCount(Some(prefix + NatToString(n) + rest)) == n
  {
    var digits := NatToString(n);
    FirstDigitRunAfter(prefix, digits, rest);
    assert |prefix + digits + rest| > 0;
    DecimalValueOfNatToString(n);
  }

  /** The texts of the invoice detail view as `textContent` returned them. */
  datatype DetailTexts = DetailTexts(
    invoiceNumber: Option<string>,
    date: Option<string>,
    customer: Option<string>,
    total: Option<string>,
    status: Option<string>)

  /**
   * What `getInvoiceData` returns, up to `parseFloat`: the total is kept
   * as the text `parseFloat` is given.
   */
  datatype DetailData = DetailData(
    invoiceNumber: string,
    date: string,
    customer: string,
    totalText: string,
    status: string)

  /** `text || fallback`: a null or empty text gives the fallback. */
  function OrElse(text: Option<string>, fallback: string): string {
    if TruthyText(text) then text.value else fallback
  }

  /** `getInvoiceData`, without the wait for the modal and without `parseFloat`. */
  function GetInvoiceData(texts: DetailTexts): DetailData {
    DetailData(
      Trim(OrElse(texts.invoiceNumber, "")),
      Trim(OrElse(texts.date, "")),
      Trim(OrElse(texts.customer, "")),
      KeepNumberChars(OrElse(texts.total, "0")),
      Trim(OrElse(texts.status, "")))
  }

  /** A text that neither starts nor ends with whitespace. */
  predicate TrimmedText(f: string) {
    f == [] || (!IsWhitespace(f[0]) && !IsWhitespace(f[|f| - 1]))
  }

  /**
   * `f` is the cleaned-up form of the page's `text`: trimmed, what the page
   * showed without the whitespace at its two ends, and empty when the page
   * showed nothing.
   */
  predicate CleanedFrom(text: Option<string>, f: string) {
    TrimmedText(f) && (text.Some? ==> StripsWhitespace(text.value, f)) && (text.None? ==> f == "")
  }

  /** One text field of the detail view, `(text || '').trim()`, is cleaned up. */
  lemma TrimmedField(text: Option<string>)
    ensures CleanedFrom(text, Trim(OrElse(text, "")))
  {
    var s := OrElse(text, "");
    TrimStrips(s);
    TrimEnds(s);
    if !TruthyText(text) {
      TrimKeeps(s);
    }
  }

  /** The four text fields `getInvoiceData` returns are cleaned up. */
  lemma DetailTextsTrimmed(texts: DetailTexts)
    ensures CleanedFrom(texts.invoiceNumber, GetInvoiceData(texts).invoiceNumber)
    ensures CleanedFrom(texts.date, GetInvoiceData(texts).date)
    ensures CleanedFrom(texts.customer, GetInvoiceData(texts).customer)
    ensures CleanedFrom(texts.status, GetInvoiceData(texts).status)
  {
    TrimmedField(texts.invoiceNumber);
    TrimmedField(texts.date);
    TrimmedField(texts.customer);
    TrimmedField(texts.status);
  }

  /**
   * The total text keeps only digits and dots, in their original order:
   * what the page showed splits into pieces whose filtered parts are the
   * total; a missing or empty total becomes "0"; and a total made of
   * digits and dots already is kept whole.
   */
  lemma TotalCleanup(texts: DetailTexts, before: string, after: string)
    ensures forall i | 0 <= i < |GetInvoiceData(texts).totalText| :: IsNumberChar(GetInvoiceData(texts).totalText[i])
    ensures !TruthyText(texts.total) ==> GetInvoiceData(texts).totalText == "0"
    ensures texts.total == Some(before + after) && before != [] ==>
      GetInvoiceData(texts).totalText == KeepNumberChars(before) + KeepNumberChars(after)
    ensures TruthyText(texts.total) && (forall i | 0 <= i < |texts.total.value| :: IsNumberChar(texts.total.value[i])) ==>
      GetInvoiceData(texts).totalText == texts.total.value
  {
    KeepNumberCharsAppend(before, after);
    if !TruthyText(texts.total) {
      KeepNumberCharsOfNumber("0");
    }
    if TruthyText(texts.total) && (forall i | 0 <= i < |texts.total.value| :: IsNumberChar(texts.total.value[i])) {
      KeepNumberCharsOfNumber(texts.total.value);
    }
  }

  /** Any character of the total other than a digit or a dot is dropped, not replaced. */
  lemma TotalDropsOtherChars(texts: DetailTexts, before: string, c: char, after: string)
    requires texts.total == Some(before + [c] + after) && !IsNumberChar(c)
    ensures GetInvoiceData(texts).totalText == KeepNumberChars(before) + KeepNumberChars(after)
  {
    assert GetInvoiceData(texts).totalText == KeepNumberChars(texts.total.value);
    KeepNumberCharsDrops(before, c, after);
  }

  /** Every digit and dot of a shown total is kept as often as it was shown, and nothing else is. */
  lemma TotalKeepsNumberChars(texts: DetailTexts)
    requires TruthyText(texts.total)
    ensures var shown := texts.total.value; var kept := GetInvoiceData(texts).totalText;
      forall d :: multiset(kept)[d] == (if IsNumberChar(d) then multiset(shown)[d] else 0)
  {
    assert GetInvoiceData(texts).totalText == KeepNumberChars(texts.total.value);
    KeepNumberCharsCounts(texts.total.value);
  }
}
