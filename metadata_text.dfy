/** The string steps of the link-preview route (src/app/api/metadata/route.js):
    protocol prefixing, `||` fallback chains, the first-occurrence
    `replace`, `trim`, lower-casing and description truncation. */
module MetadataText {
  import opened Js

  /** ASCII lower-casing of one character. */
  function LowerAscii(c: char): (r: char)
    ensures 'A' <= c <= 'Z' ==> r as int == c as int + 32
    ensures !('A' <= c <= 'Z') ==> r == c
  {
    if 'A' <= c <= 'Z' then (c as int + 32) as char else c
  }

  /** `text.toLowerCase()`, on ASCII letters. */
  function Lower(s: string): (r: string)
    ensures |r| == |s|
    ensures forall i :: 0 <= i < |s| ==> r[i] == LowerAscii(s[i])
  {
    seq(|s|, i requires 0 <= i < |s| => LowerAscii(s[i]))
  }

  /** `s` begins with the lower-case `p` when letters are compared without case. */
  predicate StartsWithIgnoringCase(s: string, p: string) {
    |p| <= |s| && forall i :: 0 <= i < |p| ==> LowerAscii(s[i]) == p[i]
  }

  /** `/^https?:\/\//i.test(url)`. */
  predicate HasScheme(url: string) {
    StartsWithIgnoringCase(url, "http://") || StartsWithIgnoringCase(url, "https://")
  }

  /** The URL that is fetched: `https://` is put in front unless the URL
      already starts with `http://` or `https://` in any letter case, so
      prefixing an already prefixed URL changes nothing. */
  function WithProtocol(url: string): (r: string)
    ensures HasScheme(r)
    ensures HasScheme(url) ==> r == url
    ensures !HasScheme(url) ==> r == "https://" + url
  {
    if HasScheme(url) then url
    else
      var r := "https://" + url;
      assert StartsWithIgnoringCase(r, "https://") by {
        assert forall i :: 0 <= i < 8 ==> r[i] == "https://"[i];
      }
      r
  }

  /** `a || b || ... || last` on optional strings: the first truthy option,
      or `last` when none is. */
  function FirstTruthy(options: seq<Option<string>>, last: string): (r: string)
    ensures (forall k :: 0 <= k < |options| ==> !Truthy(options[k])) ==> r == last
    ensures forall k :: (0 <= k < |options| && Truthy(options[k]) &&
                         (forall j :: 0 <= j < k ==> !Truthy(options[j]))) ==> r == options[k].value
    decreases |options|
  {
    if options == [] then last
    else if Truthy(options[0]) then options[0].value
    else
      assert forall k :: 0 < k < |options| ==> options[k] == options[1..][k - 1];
      FirstTruthy(options[1..], last)
  }

  /** The first position at or after `from` where `p` occurs in `s`. */
  function IndexFrom(s: string, p: string, from: nat): (r: Option<nat>)
    requires from <= |s|
    ensures r.Some? ==> from <= r.value <= |s| && StartsWith(s[r.value..], p)
    ensures r.Some? ==> forall j :: from <= j < r.value ==> !StartsWith(s[j..], p)
    ensures r.None? ==> forall j :: from <= j <= |s| ==> !StartsWith(s[j..], p)
    decreases |s| - from
  {
    if StartsWith(s[from..], p) then Some(from)
    else if from == |s| then None
    else IndexFrom(s, p, from + 1)
  }

  /** `s.indexOf(p)`: the first position where `p` occurs, if any. */
  function IndexOf(s: string, p: string): (r: Option<nat>)
    ensures r.None? <==> !Contains(s, p)
    ensures r.Some? ==> r.value + |p| <= |s| && StartsWith(s[r.value..], p)
    ensures r.Some? ==> forall j :: 0 <= j < r.value ==> !StartsWith(s[j..], p)
  {
    IndexFrom(s, p, 0)
  }

  /** `s.replace(p, rep)` with a string pattern: only the first occurrence
      of `p` is replaced, and `s` is unchanged when `p` does not occur. */
  function ReplaceFirst(s: string, p: string, rep: string): (r: string)
    ensures !Contains(s, p) ==> r == s
    ensures Contains(s, p) ==>
      var i := IndexOf(s, p).value;
      |r| == |s| - |p| + |rep| && r[..i] == s[..i] && r[i..i + |rep|] == rep && r[i + |rep|..] == s[i + |p|..]
  {
    match IndexOf(s, p)
    case None => s
    case Some(i) => s[..i] + rep + s[i + |p|..]
  }

  /** The characters `String.prototype.trim` removes: white space and line
      terminators. */
  predicate IsJsSpace(c: char) {
    c == '\t' || c == '\n' || c == '\U{B}' || c == '\U{C}' || c == '\r' || c == ' ' ||
    c == '\U{A0}' || c == '\U{1680}' || ('\U{2000}' <= c <= '\U{200A}') || c == '\U{2028}' ||
    c == '\U{2029}' || c == '\U{202F}' || c == '\U{205F}' || c == '\U{3000}' || c == '\U{FEFF}'
  }

  /** `s.trimStart()`: drops leading white space, and only that. */
  function TrimStart(s: string): (r: string)
    ensures |r| <= |s| && r == s[|s| - |r|..]
    ensures forall k :: 0 <= k < |s| - |r| ==> IsJsSpace(s[k])
    ensures r != [] ==> !IsJsSpace(r[0])
    decreases |s|
  {
    if s != [] && IsJsSpace(s[0]) then
      var r := TrimStart(s[1..]);
      assert forall k :: 1 <= k < |s| ==> s[k] == s[1..][k - 1];
      r
    else s
  }

  /** `s.trimEnd()`: drops trailing white space, and only that. */
  function TrimEnd(s: string): (r: string)
    ensures |r| <= |s| && r == s[..|r|]
    ensures forall k :: |r| <= k < |s| ==> IsJsSpace(s[k])
    ensures r != [] ==> !IsJsSpace(r[|r| - 1])
    decreases |s|
  {
    if s != [] && IsJsSpace(s[|s| - 1]) then
      var r := TrimEnd(s[..|s| - 1]);
      assert forall k :: 0 <= k < |s| - 1 ==> s[k] == s[..|s| - 1][k];
      r
    else s
  }

  /** `title.trim()`: the result neither starts nor ends with white space. */
  function Trim(s: string): (r: string)
    ensures r == [] || (!IsJsSpace(r[0]) && !IsJsSpace(r[|r| - 1]))
    ensures |r| <= |s|
  {
    var t := TrimStart(s);
    var r := TrimEnd(t);
    assert r != [] ==> r[0] == t[0];
    r
  }

  /** Trimming keeps a contiguous stretch of `s`, starting where
      `trimStart` stops. */
  lemma TrimIsSlice(s: string)
    ensures
      var r := Trim(s);
      var i := |s| - |TrimStart(s)|;
      i + |r| <= |s| && r == s[i..i + |r|]
  {
    var t := TrimStart(s);
    var r := TrimEnd(t);
    var i := |s| - |t|;
    assert t == s[i..];
    assert r == t[..|r|];
  }

  /** What trimming drops, before and after that stretch, is white space. */
  lemma TrimDropsOnlySpace(s: string)
    ensures
      var r := Trim(s);
      var i := |s| - |TrimStart(s)|;
      i + |r| <= |s| &&
      (forall k :: 0 <= k < i ==> IsJsSpace(s[k])) &&
      (forall k :: i + |r| <= k < |s| ==> IsJsSpace(s[k]))
  {
    var t := TrimStart(s);
    var r := TrimEnd(t);
    var i := |s| - |t|;
    assert t == s[i..];
    forall k | i + |r| <= k < |s| ensures IsJsSpace(s[k]) {
      assert s[k] == t[k - i];
    }
  }

  /** Trimming twice is trimming once. */
  lemma TrimIdempotent(s: string)
    ensures Trim(Trim(s)) == Trim(s)
  {
    var r := Trim(s);
    assert TrimStart(r) == r;
    assert TrimEnd(r) == r;
  }

  const DescriptionLimit := 150

  /** `d.substring(0, 150) + (d.length > 150 ? '...' : '')`: the first 150
      characters, and an ellipsis exactly when something was cut. */
  function Truncate(d: string): (r: string)
    ensures |d| <= DescriptionLimit ==> r == d
    ensures |d| > DescriptionLimit ==>
      |r| == DescriptionLimit + 3 && r[..DescriptionLimit] == d[..DescriptionLimit] && r[DescriptionLimit..] == "..."
    ensures |r| <= DescriptionLimit + 3
  {
    if |d| > DescriptionLimit then d[..DescriptionLimit] + "..." else d
  }
}
