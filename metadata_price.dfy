/** The price the link-preview route reads from a page's title and
    description (src/app/api/metadata/route.js): the first dollar amount
    matched by `/\$(\d{1,3}(,\d{3})*(\.\d{2})?)/`, with its commas removed,
    rounded to whole dollars. Beside it, the same steps with the leading
    digit run unbounded, which reads amounts without a thousands separator
    in full. */
module MetadataPrice {
  import opened Js
  import opened Seqs

  predicate IsDigit(c: char) {
    '0' <= c <= '9'
  }

  /** All characters of `s` are decimal digits. */
  predicate AllDigits(s: string) {
    forall i :: 0 <= i < |s| ==> IsDigit(s[i])
  }

  /** The length of the run of digits `s` starts with, cut off at `max`
      (a greedy `\d{1,max}`). */
  function DigitRun(s: string, max: nat): (n: nat)
    ensures n <= max && n <= |s|
    ensures AllDigits(s[..n])
    ensures n < max && n < |s| ==> !IsDigit(s[n])
    decreases max
  {
    if max == 0 || s == [] || !IsDigit(s[0]) then 0
    else
      var n := 1 + DigitRun(s[1..], max - 1);
      assert forall i :: 1 <= i < n ==> s[..n][i] == s[1..][..n - 1][i - 1];
      n
  }

  /** A `,\d{3}` group starts at `j`. */
  predicate GroupAt(s: string, j: nat) {
    j + 4 <= |s| && s[j] == ',' && IsDigit(s[j + 1]) && IsDigit(s[j + 2]) && IsDigit(s[j + 3])
  }

  /** The length of the `(,\d{3})*` groups `s` starts with, taken greedily:
      whole groups back to back, and no further group where they stop. */
  function GroupsLength(s: string): (n: nat)
    ensures n <= |s| && n % 4 == 0
    ensures forall j: nat :: j < n && j % 4 == 0 ==> GroupAt(s, j)
    ensures !GroupAt(s, n)
    decreases |s|
  {
    if GroupAt(s, 0) then
      var t := s[4..];
      var m := GroupsLength(t);
      assert forall j: nat :: j + 4 <= |t| ==> (GroupAt(t, j) <==> GroupAt(s, j + 4));
      assert forall j: nat :: 4 <= j < 4 + m && j % 4 == 0 ==> GroupAt(t, j - 4);
      4 + m
    else 0
  }

  /** The length of the optional `(\.\d{2})` part `s` starts with. */
  function CentsLength(s: string): (n: nat)
    ensures n <= |s|
    ensures n == 3 <==> |s| >= 3 && s[0] == '.' && IsDigit(s[1]) && IsDigit(s[2])
    ensures n == 0 || n == 3
  {
    if |s| >= 3 && s[0] == '.' && IsDigit(s[1]) && IsDigit(s[2]) then 3 else 0
  }

  /** The amount captured after a `$`: the leading digits, at most
      `leadMax` of them, then every `,\d{3}` group that follows, then `.\d{2}`
      when it follows. Every part is greedy and nothing follows the group in
      the pattern, so the first attempt is the match. */
  function Amount(s: string, leadMax: nat): (r: string)
    requires |s| > 0 && IsDigit(s[0]) && leadMax >= 1
    ensures 1 <= |r| <= |s| && r == s[..|r|] && IsDigit(r[0])
    ensures var lead := DigitRun(s, leadMax);
      var groups := GroupsLength(s[lead..]);
      |r| == lead + groups + CentsLength(s[lead + groups..])
  {
    var lead := DigitRun(s, leadMax);
    var groups := GroupsLength(s[lead..]);
    var cents := CentsLength(s[lead + groups..]);
    s[..lead + groups + cents]
  }

  /** A match of the pattern can start at `i`: a `$` followed by a digit. */
  predicate MatchStartsAt(s: string, i: nat) {
    i + 1 < |s| && s[i] == '$' && IsDigit(s[i + 1])
  }

  /** No match starts anywhere in `s`. */
  predicate NoMatch(s: string) {
    forall j: nat :: j < |s| ==> !MatchStartsAt(s, j)
  }

  /** The leftmost match starts at `i`. */
  predicate FirstMatchAt(s: string, i: nat) {
    MatchStartsAt(s, i) && forall j: nat :: j < i ==> !MatchStartsAt(s, j)
  }

  /** The leftmost position at or after `from` where a match starts. */
  function MatchStart(s: string, from: nat): (r: Option<nat>)
    ensures r.Some? ==> from <= r.value && MatchStartsAt(s, r.value)
    ensures r.Some? ==> forall j: nat :: from <= j < r.value ==> !MatchStartsAt(s, j)
    ensures r.None? ==> forall j: nat :: from <= j ==> !MatchStartsAt(s, j)
    decreases |s| - from
  {
    if from + 1 >= |s| then None
    else if MatchStartsAt(s, from) then Some(from)
    else MatchStart(s, from + 1)
  }

  /** `text.match(priceRegex)?.[1]` as written: the amount of the leftmost
      `$` followed by a digit, with at most three digits before the first
      comma. */
  function PriceMatchAsWritten(text: string): (r: Option<string>)
    ensures r.None? <==> NoMatch(text)
    ensures r.Some? ==> r.value != [] && IsDigit(r.value[0])
    ensures r.Some? ==> exists i: nat :: FirstMatchAt(text, i) && Amount(text[i + 1..], 3) == r.value
  {
    match MatchStart(text, 0)
    case None => None
    case Some(i) =>
      var r := Amount(text[i + 1..], 3);
      assert FirstMatchAt(text, i) && Amount(text[i + 1..], 3) == r;
      Some(r)
  }

  /** The match with the leading digit run unbounded
      (`/\$(\d+(,\d{3})*(\.\d{2})?)/`): the whole run of digits after the `$`
      is captured, so an amount written without a thousands separator is
      read in full. */
  function PriceMatch(text: string): (r: Option<string>)
    ensures r.None? <==> NoMatch(text)
    ensures r.Some? ==> r.value != [] && IsDigit(r.value[0])
    ensures r.Some? ==> exists i: nat :: FirstMatchAt(text, i) && r.value == Amount(text[i + 1..], |text| - i - 1)
  {
    match MatchStart(text, 0)
    case None => None
    case Some(i) =>
      var t := text[i + 1..];
      assert FirstMatchAt(text, i);
      Some(Amount(t, |t|))
  }

  /** The corrected capture keeps the whole leading digit run. */
  lemma PriceMatchKeepsDigitRun(text: string)
    requires PriceMatch(text).Some?
    ensures exists i: nat :: FirstMatchAt(text, i) &&
                             (var t := text[i + 1..];
                              var m := PriceMatch(text).value;
                              |m| <= |t| && m == t[..|m|] && DigitRun(t, |t|) <= |m|)
  {
    var i: nat :| FirstMatchAt(text, i) && PriceMatch(text).value == Amount(text[i + 1..], |text| - i - 1);
    var t := text[i + 1..];
    assert |t| == |text| - i - 1;
  }

  /** The test of `.replace(/,/g, '')`. */
  function NotComma(c: char): bool {
    c != ','
  }

  /** `s.replace(/,/g, '')`: every comma goes, the other characters stay in order. */
  function RemoveCommas(s: string): (r: string)
    ensures ',' !in r
    ensures forall c :: c in r <==> c in s && c != ','
    ensures IsSubsequence(r, s)
    // every other character keeps all of its occurrences
    ensures forall c :: multiset(r)[c] == if c == ',' then 0 else multiset(s)[c]
  {
    FilterIsSubsequence(s, NotComma);
    FilterMultiset(s, NotComma);
    Filter(s, NotComma)
  }

  /** `price`: the capture with its commas removed, or '' when nothing
      matched. */
  function PriceText(text: string): (r: string)
    ensures ',' !in r
    ensures r == "" <==> NoMatch(text)
    ensures PriceMatchAsWritten(text).Some? ==> r == RemoveCommas(PriceMatchAsWritten(text).value)
  {
    match PriceMatchAsWritten(text)
    case None => ""
    case Some(m) =>
      var r := RemoveCommas(m);
      assert m[0] in m;
      assert m[0] in r;
      r
  }

  /** The same text from the corrected match. */
  function CorrectedPriceText(text: string): (r: string)
    ensures ',' !in r
    ensures r == "" <==> NoMatch(text)
    ensures PriceMatch(text).Some? ==> r == RemoveCommas(PriceMatch(text).value)
  {
    match PriceMatch(text)
    case None => ""
    case Some(m) =>
      var r := RemoveCommas(m);
      assert m[0] in m;
      assert m[0] in r;
      r
  }

  function DigitValue(c: char): nat
    requires IsDigit(c)
  {
    c as int - '0' as int
  }

  /** The value of a run of decimal digits. */
  function DigitsValue(s: string): nat
    requires AllDigits(s)
    decreases |s|
  {
    if s == [] then 0 else 10 * DigitsValue(s[..|s| - 1]) + DigitValue(s[|s| - 1])
  }

  /** The value of the digits after a decimal point: in [0, 1). */
  function FractionValue(s: string): (v: real)
    requires AllDigits(s)
    ensures 0.0 <= v < 1.0
    decreases |s|
  {
    if s == [] then 0.0
    else
      assert AllDigits(s[1..]) by {
        assert forall i :: 0 <= i < |s| - 1 ==> s[1..][i] == s[i + 1];
      }
      (DigitValue(s[0]) as real + FractionValue(s[1..])) / 10.0
  }

  /** The digits before the point, and those after it (if there is a point). */
  function IntegerDigits(s: string): (r: string)
    ensures AllDigits(r)
  {
    s[..DigitRun(s, |s|)]
  }

  function FractionDigits(s: string): (r: string)
    ensures AllDigits(r)
  {
    var n := DigitRun(s, |s|);
    if n < |s| && s[n] == '.' then IntegerDigits(s[n + 1..]) else ""
  }

  /** `parseFloat(s)` on a string of digits with an optional decimal part. */
  function ParsedValue(s: string): real {
    DigitsValue(IntegerDigits(s)) as real + FractionValue(FractionDigits(s))
  }

  /** `Math.round(parseFloat(s))`, computed from the digits: the integer part,
      plus one when the first decimal digit is 5 or more. */
  function RoundedPrice(s: string): (n: int)
    ensures n as real - 0.5 <= ParsedValue(s) < n as real + 0.5
  {
    var whole := DigitsValue(IntegerDigits(s));
    var frac := FractionDigits(s);
    if frac != [] && DigitValue(frac[0]) >= 5 then
      assert AllDigits(frac[1..]) by {
        assert forall i :: 0 <= i < |frac| - 1 ==> frac[1..][i] == frac[i + 1];
      }
      assert FractionValue(frac) >= 0.5;
      whole + 1
    else
      assert frac != [] ==> AllDigits(frac[1..]) by {
        assert forall i :: 0 <= i < |frac| - 1 ==> frac[1..][i] == frac[i + 1];
      }
      assert FractionValue(frac) < 0.5;
      whole
  }

  /** The `price` field of the reply. */
  datatype PriceField = Dollars(amount: int) | NoPrice

  /** `price ? Math.round(parseFloat(price)) : ''` on the page text. */
  function PriceOf(text: string): (r: PriceField)
    ensures r.NoPrice? <==> NoMatch(text)
    ensures r.Dollars? ==> r.amount as real - 0.5 <= ParsedValue(PriceText(text)) < r.amount as real + 0.5
  {
    var p := PriceText(text);
    if p != "" then Dollars(RoundedPrice(p)) else NoPrice
  }

  /** The same field from the corrected match. */
  function CorrectedPriceOf(text: string): (r: PriceField)
    ensures r.NoPrice? <==> NoMatch(text)
    ensures r.Dollars? ==> r.amount as real - 0.5 <= ParsedValue(CorrectedPriceText(text)) < r.amount as real + 0.5
  {
    var p := CorrectedPriceText(text);
    if p != "" then Dollars(RoundedPrice(p)) else NoPrice
  }

  /** A run of `max` digits is taken whole by `\d{1,max}`. */
  lemma {:induction false} DigitRunOfDigits(s: string, max: nat)
    requires max <= |s| && AllDigits(s[..max])
    ensures DigitRun(s, max) == max
    decreases max
  {
    if max > 0 {
      assert IsDigit(s[..max][0]);
      var rest := s[1..][..max - 1];
      forall k | 0 <= k < |rest| ensures IsDigit(rest[k]) {
        assert rest[k] == s[..max][k + 1];
      }
      DigitRunOfDigits(s[1..], max - 1);
    }
  }

  /** As written, a first price with four or more digits and no thousands
      separator is cut to its first three digits: the fourth digit is
      neither a comma group nor a decimal point, so the match ends there.
      Read with the whole digit run, all of those digits are kept. */
  lemma UnseparatedThousandsTruncated(text: string, i: nat)
    requires FirstMatchAt(text, i) && i + 5 <= |text| && AllDigits(text[i + 1..i + 5])
    ensures PriceMatchAsWritten(text) == Some(text[i + 1..i + 4])
    ensures |PriceMatch(text).value| >= 4 && PriceMatch(text).value[..4] == text[i + 1..i + 5]
  {
    var first := MatchStart(text, 0);
    assert MatchStartsAt(text, i);
    assert first.Some?;
    assert !(first.value < i);
    assert !(i < first.value);
    var t := text[i + 1..];
    assert t[..3] == text[i + 1..i + 4] && t[..4] == text[i + 1..i + 5];
    assert AllDigits(t[..3]) by {
      assert forall k :: 0 <= k < 3 ==> t[..3][k] == text[i + 1..i + 5][k];
    }
    DigitRunOfDigits(t, 3);
    assert IsDigit(t[3]) by {
      assert t[3] == text[i + 1..i + 5][3];
    }
    assert GroupsLength(t[3..]) == 0;
    assert CentsLength(t[3..]) == 0;
    assert AllDigits(t[..4]);
    assert DigitRun(t, 4) == 4 by {
      DigitRunOfDigits(t, 4);
    }
    forall k | 0 <= k < 4 ensures IsDigit(t[k]) {
      assert t[k] == t[..4][k];
    }
  }

  lemma DigitsValueStep(s: string, c: char)
    requires AllDigits(s) && IsDigit(c)
    ensures AllDigits(s + [c]) && DigitsValue(s + [c]) == 10 * DigitsValue(s) + DigitValue(c)
  {
    assert (s + [c])[..|s|] == s;
  }

  /** The facts about "$1500" the two readings below rest on. */
  lemma FifteenHundredFirstMatch(text: string)
    requires text == "$1500"
    ensures FirstMatchAt(text, 0) && AllDigits(text[1..5])
    ensures text[1..4] == "150" && text[1..5] == "1500" && |text| == 5
  {
    assert MatchStartsAt(text, 0);
  }

  /** "$1500" is read as 150 as written. */
  lemma FifteenHundredReadAsOneFifty(text: string)
    requires text == "$1500"
    ensures PriceMatchAsWritten(text) == Some("150")
  {
    FifteenHundredFirstMatch(text);
    UnseparatedThousandsTruncated(text, 0);
  }

  /** Read in full, "$1500" matches as "1500". */
  lemma FifteenHundredReadInFull(text: string)
    requires text == "$1500"
    ensures PriceMatch(text) == Some("1500")
  {
    FifteenHundredFirstMatch(text);
    assert MatchStart(text, 0) == Some(0);
    var t := text[1..];
    assert t == "1500";
    DigitRunOfDigits(t, 4);
    var m := Amount(t, 4);
    assert PriceMatch(text) == Some(m);
    assert |m| == 4 && m == t[..4];
    assert t[..4] == t;
  }

  /** A run of plain digits keeps every character when commas are removed,
      and rounds to its own value. */
  lemma PlainDigits(m: string)
    requires AllDigits(m)
    ensures RemoveCommas(m) == m && RoundedPrice(m) == DigitsValue(m)
  {
    forall i | 0 <= i < |m| ensures NotComma(m[i]) {
      assert IsDigit(m[i]);
    }
    FilterAllKept(m, NotComma);
    assert m[..|m|] == m;
    DigitRunOfDigits(m, |m|);
    assert IntegerDigits(m) == m;
    assert FractionDigits(m) == "";
  }

  lemma OneFiftyValue(m: string)
    requires m == "150"
    ensures AllDigits(m) && DigitsValue(m) == 150
  {
    DigitsValueStep("", '1');
    assert "" + ['1'] == "1";
    DigitsValueStep("1", '5');
    assert "1" + ['5'] == "15";
    DigitsValueStep("15", '0');
    assert "15" + ['0'] == "150";
  }

  lemma FifteenHundredValue(m: string)
    requires m == "1500"
    ensures AllDigits(m) && DigitsValue(m) == 1500
  {
    OneFiftyValue("150");
    DigitsValueStep("150", '0');
    assert "150" + ['0'] == "1500";
  }

  /** As written, the page text "$1500" gives a price of 150 dollars. */
  lemma FifteenHundredPriceAsWritten(text: string)
    requires text == "$1500"
    ensures PriceText(text) == "150"
    ensures PriceOf(text) == Dollars(150)
  {
    FifteenHundredReadAsOneFifty(text);
    var m := PriceMatchAsWritten(text).value;
    OneFiftyValue(m);
    PlainDigits(m);
  }

  /** Read in full, the "$1500" text stays "1500" without commas. */
  lemma FifteenHundredText(text: string)
    requires text == "$1500"
    ensures CorrectedPriceText(text) == "1500"
  {
    FifteenHundredReadInFull(text);
    var m := PriceMatch(text).value;
    FifteenHundredValue(m);
    PlainDigits(m);
  }

  /** Read in full, "$1500" gives a price of 1500 dollars. */
  lemma FifteenHundredPrice(text: string)
    requires text == "$1500"
    ensures CorrectedPriceOf(text) == Dollars(1500)
  {
    FifteenHundredText(text);
    var m := CorrectedPriceText(text);
    FifteenHundredValue(m);
    PlainDigits(m);
  }

  /** As written, "$1,234.56" is captured whole: one leading digit, one
      comma group and the cents. */
  lemma GroupsAndCentsCaptured(text: string)
    requires text == "$1,234.56"
    ensures PriceMatchAsWritten(text) == Some("1,234.56")
  {
    assert MatchStartsAt(text, 0);
    assert MatchStart(text, 0) == Some(0);
    var t := text[1..];
    assert t == "1,234.56";
    assert DigitRun(t[1..], 2) == 0;
    assert DigitRun(t, 3) == 1;
    var g := t[1..];
    assert GroupAt(g, 0) && !GroupAt(g[4..], 0);
    assert GroupsLength(g) == 4;
    assert CentsLength(t[5..]) == 3;
    assert t[..8] == t;
  }
}
