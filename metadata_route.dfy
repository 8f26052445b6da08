/** The link-preview route (src/app/api/metadata/route.js): given the
    pasted URL, it fetches the page and extracts a title, an image, a price,
    room counts, amenities and a description. The DOM queries, the regular
    expressions other than the price pattern, URL parsing and the fetch are
    inputs; the route's own choices and post-processing are modelled. */
module MetadataRoute {
  import opened Js
  import opened Seqs
  import opened MetadataText
  import opened MetadataPrice

  // ---------------------------------------------------------------- JSON

  /** A decoded JSON value (numbers as reals; NaN does not arise from JSON). */
  datatype Json =
    | JNull
    | JBool(b: bool)
    | JNumber(n: real)
    | JString(s: string)
    | JArray(items: seq<Json>)
    | JObject(fields: map<string, Json>)

  /** JavaScript truthiness of a JSON value. */
  predicate JsonTruthy(v: Json) {
    match v
    case JNull => false
    case JBool(b) => b
    case JNumber(n) => n != 0.0
    case JString(s) => s != ""
    case _ => true
  }

  /** Truthiness of a property read, `None` standing for `undefined`. */
  predicate IsTruthy(v: Option<Json>) {
    v.Some? && JsonTruthy(v.value)
  }

  /** `v[key]` on a value that is not null, for the keys the route reads
      (`@type`, `name`, `value`, `length`): an object's own field, the
      length of a string or an array, `undefined` otherwise. */
  function Get(v: Json, key: string): (r: Option<Json>)
    requires !v.JNull?
    ensures v.JObject? ==> (r.Some? <==> key in v.fields)
    ensures v.JObject? && r.Some? ==> r.value == v.fields[key]
    ensures (v.JBool? || v.JNumber?) ==> r.None?
  {
    match v
    case JObject(fields) => if key in fields then Some(fields[key]) else None
    case JString(s) => if key == "length" then Some(JNumber(|s| as real)) else None
    case JArray(items) => if key == "length" then Some(JNumber(|items| as real)) else None
    case _ => None
  }

  // ---------------------------------------------------------- the inputs

  /** Library behaviour the route relies on and the model takes as given:
      the case-insensitive regular-expression test of an amenity pattern
      against a text, the two room-count patterns (with `parseInt` and
      `parseFloat` applied to their first group), and URL parsing. */
  datatype Builtins = Builtins(
    test: (string, string) -> bool,
    bedroomsIn: string -> Option<int>,
    bathroomsIn: string -> Option<real>,
    resolveUrl: (string, string) -> string,
    hostname: string -> string)

  /** An `<img>` element's `src`, `data-src` and `data-original` attributes. */
  datatype Img = Img(src: Option<string>, dataSrc: Option<string>, dataOriginal: Option<string>)

  /** The content of one `<script type="application/ld+json">`: `Unparsable`
      when `JSON.parse` throws on it. */
  datatype Script = Unparsable | Parsed(data: Json)

  /** What the route reads from the fetched document: the `content` of the
      `og:` and `twitter:` meta tags and of the description meta tag, the
      text of the `<title>` and of the first `<h1>`, the `image_src` link,
      the images in document order, the JSON-LD scripts in document order
      and the text of the `<body>`. */
  datatype Page = Page(
    ogTitle: Option<string>,
    twitterTitle: Option<string>,
    titleText: string,
    h1Text: string,
    ogImage: Option<string>,
    twitterImage: Option<string>,
    imageSrcLink: Option<string>,
    imgs: seq<Img>,
    ogDescription: Option<string>,
    metaDescription: Option<string>,
    scripts: seq<Script>,
    bodyText: string)

  // ------------------------------------------------------------ the image

  /** The URL an image offers: its first truthy source attribute, resolved
      against the page URL when it starts with `/`. */
  function Candidate(img: Img, pageUrl: string, b: Builtins): (r: Option<string>)
    ensures r.None? <==> !Truthy(img.src) && !Truthy(img.dataSrc) && !Truthy(img.dataOriginal)
  {
    var options := [img.src, img.dataSrc, img.dataOriginal];
    var src := FirstTruthy(options, "");
    assert Truthy(options[0]) || Truthy(options[1]) || Truthy(options[2]) ==> src != "";
    if src == "" then None
    else if StartsWith(src, "/") then Some(b.resolveUrl(src, pageUrl))
    else Some(src)
  }

  /** An image URL the scan accepts: absolute, and not an icon, a logo or
      an SVG by its name. */
  predicate Acceptable(src: string) {
    StartsWith(src, "http") && !Contains(src, "icon") && !Contains(src, "logo") && !Contains(src, "svg")
  }

  /** The scan stops at this image. */
  predicate Picks(img: Img, pageUrl: string, b: Builtins) {
    var c := Candidate(img, pageUrl, b);
    c.Some? && Acceptable(c.value)
  }

  /** The scan stops at image `k` and at no image before it. */
  predicate FirstPickAt(imgs: seq<Img>, k: nat, pageUrl: string, b: Builtins) {
    k < |imgs| && Picks(imgs[k], pageUrl, b) && forall j :: 0 <= j < k ==> !Picks(imgs[j], pageUrl, b)
  }

  /** The image the `$('img').each` scan settles on: the candidate of the
      first image it accepts, or '' when it accepts none. */
  function ImageScan(imgs: seq<Img>, pageUrl: string, b: Builtins): (r: string)
    ensures r == "" <==> forall k :: 0 <= k < |imgs| ==> !Picks(imgs[k], pageUrl, b)
    ensures r != "" ==> exists k: nat :: FirstPickAt(imgs, k, pageUrl, b) && r == Candidate(imgs[k], pageUrl, b).value
    decreases |imgs|
  {
    if imgs == [] then ""
    else if Picks(imgs[0], pageUrl, b) then
      var r := Candidate(imgs[0], pageUrl, b).value;
      assert FirstPickAt(imgs, 0, pageUrl, b);
      r
    else
      var r := ImageScan(imgs[1..], pageUrl, b);
      assert forall k :: 0 < k < |imgs| ==> imgs[k] == imgs[1..][k - 1];
      assert r != "" ==> exists k: nat :: FirstPickAt(imgs, k, pageUrl, b) && r == Candidate(imgs[k], pageUrl, b).value by {
        if r != "" {
          var k: nat :| FirstPickAt(imgs[1..], k, pageUrl, b) && r == Candidate(imgs[1..][k], pageUrl, b).value;
          assert FirstPickAt(imgs, k + 1, pageUrl, b);
        }
      }
      r
  }

  /** The `$('img').each` loop, which returns `false` to stop at the first
      accepted image. */
  method ScanImages(imgs: seq<Img>, pageUrl: string, b: Builtins) returns (image: string)
    ensures image == ImageScan(imgs, pageUrl, b)
  {
    image := "";
    var i := 0;
    while i < |imgs|
      invariant 0 <= i <= |imgs|
      invariant ImageScan(imgs[i..], pageUrl, b) == ImageScan(imgs, pageUrl, b)
    {
      assert imgs[i..][1..] == imgs[i + 1..];
      var src := Candidate(imgs[i], pageUrl, b);
      if src.Some? && Acceptable(src.value) {
        image := src.value;
        return;
      }
      i := i + 1;
    }
  }

  /** The `image` field: the first truthy image meta tag or link, and only
      when there is none, the result of the scan. */
  function ImageOf(page: Page, pageUrl: string, b: Builtins): (r: string)
    ensures Truthy(page.ogImage) ==> r == page.ogImage.value
    ensures !Truthy(page.ogImage) && Truthy(page.twitterImage) ==> r == page.twitterImage.value
    ensures !Truthy(page.ogImage) && !Truthy(page.twitterImage) && Truthy(page.imageSrcLink) ==> r == page.imageSrcLink.value
    ensures !Truthy(page.ogImage) && !Truthy(page.twitterImage) && !Truthy(page.imageSrcLink) ==>
      r == ImageScan(page.imgs, pageUrl, b)
  {
    var options := [page.ogImage, page.twitterImage, page.imageSrcLink];
    var meta := FirstTruthy(options, "");
    assert Truthy(options[0]) || Truthy(options[1]) || Truthy(options[2]) ==> meta != "";
    if meta != "" then meta else ImageScan(page.imgs, pageUrl, b)
  }

  // ------------------------------------------------------------- JSON-LD

  /** The schema types the route looks for. */
  const RelevantTypes := ["VacationRental", "Hotel", "LodgingBusiness", "Product", "Accommodation"]

  /** The outcome of the `@type` test on one schema. */
  datatype TypeTest = Relevant | NotRelevant | Throws

  /** A `@type` that names a relevant type: a string containing one of the
      names, or an array holding one of them as an element. */
  predicate NamesRelevantType(t: Json) {
    (t.JString? && exists k :: 0 <= k < |RelevantTypes| && Contains(t.s, RelevantTypes[k])) ||
    (t.JArray? && exists k :: 0 <= k < |RelevantTypes| && JString(RelevantTypes[k]) in t.items)
  }

  /** `RelevantTypes.some(type => s['@type'] && s['@type'].includes(type))`:
      a string `@type` is searched for each name as a substring, an array
      `@type` for each name as an element; reading `@type` of `null`, or
      calling `includes` on a truthy `@type` of another kind, throws. */
  function TestType(s: Json): (r: TypeTest)
    ensures r == Relevant <==> s.JObject? && "@type" in s.fields && NamesRelevantType(s.fields["@type"])
    ensures r == Throws <==>
      (s.JNull? ||
       (s.JObject? && "@type" in s.fields && JsonTruthy(s.fields["@type"]) &&
        !s.fields["@type"].JString? && !s.fields["@type"].JArray?))
  {
    if s.JNull? then Throws
    else
      match Get(s, "@type")
      case None => NotRelevant
      case Some(t) =>
        if !JsonTruthy(t) then NotRelevant
        else
          match t
          case JString(_) => if NamesRelevantType(t) then Relevant else NotRelevant
          case JArray(_) => if NamesRelevantType(t) then Relevant else NotRelevant
          case _ => Throws
  }

  /** `Array.isArray(data) ? data : [data]`. */
  function Schemas(data: Json): (r: seq<Json>)
    ensures data.JArray? ==> r == data.items
    ensures !data.JArray? ==> r == [data]
  {
    if data.JArray? then data.items else [data]
  }

  /** `schemas.find(...)` stops at schema `k`: it is relevant and every
      schema before it was tested without a throw and found not relevant. */
  predicate FoundAt(schemas: seq<Json>, k: nat) {
    k < |schemas| && TestType(schemas[k]) == Relevant &&
    forall j :: 0 <= j < k ==> TestType(schemas[j]) == NotRelevant
  }

  /** The fields of the schema `find` returns; `None` when none is relevant
      or the search throws first (the script is then skipped). */
  function FindRelevant(schemas: seq<Json>): (r: Option<map<string, Json>>)
    ensures r.Some? <==> exists k: nat :: FoundAt(schemas, k)
    ensures forall k: nat :: FoundAt(schemas, k) ==> schemas[k] == JObject(r.value)
    decreases |schemas|
  {
    if schemas == [] then None
    else
      match TestType(schemas[0])
      case Relevant =>
        assert FoundAt(schemas, 0);
        Some(schemas[0].fields)
      case Throws => None
      case NotRelevant =>
        var r := FindRelevant(schemas[1..]);
        assert forall k :: 0 < k < |schemas| ==> schemas[k] == schemas[1..][k - 1];
        assert forall k: nat :: FoundAt(schemas, k) ==> k > 0 && FoundAt(schemas[1..], k - 1);
        assert forall k: nat :: FoundAt(schemas[1..], k) ==> FoundAt(schemas, k + 1);
        r
  }

  /** The schema a script contributes, if any. */
  function SchemaOf(script: Script): Option<map<string, Json>> {
    match script
    case Unparsable => None
    case Parsed(data) => FindRelevant(Schemas(data))
  }

  /** Script `k` contributes a value for `key`. */
  predicate Sets(scripts: seq<Script>, k: nat, key: string) {
    k < |scripts| && SchemaOf(scripts[k]).Some? && key in SchemaOf(scripts[k]).value
  }

  /** No script from `k` on contributes a value for `key`. */
  predicate NotSetFrom(scripts: seq<Script>, k: nat, key: string) {
    forall j: nat :: k <= j < |scripts| ==> !Sets(scripts, j, key)
  }

  /** `jsonLdData` after the scripts: `{...jsonLdData, ...relevantSchema}`
      for each contributed schema in turn. A key is present when some script
      set it, and holds the value of the last script that did. */
  function Merged(scripts: seq<Script>): (r: map<string, Json>)
    ensures forall key :: key in r <==> exists k: nat :: Sets(scripts, k, key)
    ensures forall key :: key in r ==> exists k: nat :: Sets(scripts, k, key) && NotSetFrom(scripts, k + 1, key) &&
                                                     r[key] == SchemaOf(scripts[k]).value[key]
    decreases |scripts|
  {
    if scripts == [] then map[]
    else
      var n := |scripts| - 1;
      var init := scripts[..n];
      var acc := Merged(init);
      assert forall k: nat, key :: k < n ==> (Sets(init, k, key) <==> Sets(scripts, k, key));
      assert forall m: nat, key :: m <= n && NotSetFrom(init, m, key) && !Sets(scripts, n, key) ==>
        NotSetFrom(scripts, m, key);
      match SchemaOf(scripts[n])
      case None => acc
      case Some(s) =>
        var r := acc + s;
        assert forall key :: key in s ==> Sets(scripts, n, key) && NotSetFrom(scripts, n + 1, key);
        r
  }

  /** The `$('script[type="application/ld+json"]').each` loop. */
  method MergeJsonLd(scripts: seq<Script>) returns (data: map<string, Json>)
    ensures data == Merged(scripts)
  {
    data := map[];
    var i := 0;
    while i < |scripts|
      invariant 0 <= i <= |scripts|
      invariant data == Merged(scripts[..i])
    {
      assert scripts[..i + 1][..i] == scripts[..i];
      var relevant := SchemaOf(scripts[i]);
      if relevant.Some? {
        data := data + relevant.value;
      }
      i := i + 1;
    }
    assert scripts[..i] == scripts;
  }

  // ----------------------------------------------------------- amenities

  /** The features listed under `amenityFeature`, when that key is truthy:
      its elements if it is an array, otherwise the value itself. */
  function Features(data: map<string, Json>): (r: seq<Json>)
    ensures "amenityFeature" !in data || !JsonTruthy(data["amenityFeature"]) ==> r == []
    ensures "amenityFeature" in data && data["amenityFeature"].JArray? ==> r == data["amenityFeature"].items
    ensures "amenityFeature" in data && JsonTruthy(data["amenityFeature"]) && !data["amenityFeature"].JArray? ==>
      r == [data["amenityFeature"]]
  {
    if "amenityFeature" in data && JsonTruthy(data["amenityFeature"]) then
      Schemas(data["amenityFeature"])
    else []
  }

  /** `typeof f === 'string' ? f : f.name || f.value` for a feature that is
      not null, '' standing for every falsy result. */
  function FeatureName(f: Json): (r: string)
    requires !f.JNull?
    ensures f.JString? ==> r == f.s
    ensures !f.JString? && !f.JObject? ==> r == ""
    ensures f.JObject? && "name" in f.fields && JsonTruthy(f.fields["name"]) ==>
      r == (if f.fields["name"].JString? then f.fields["name"].s else "")
    ensures f.JObject? && !("name" in f.fields && JsonTruthy(f.fields["name"])) ==>
      r == (if "value" in f.fields && f.fields["value"].JString? then f.fields["value"].s else "")
  {
    match f
    case JString(s) => s
    case JObject(fields) =>
      var name := Get(f, "name");
      var value := if IsTruthy(name) then name else Get(f, "value");
      if value.Some? && value.value.JString? then value.value.s else ""
    case _ => ""
  }

  /** `features.map(...)`: the name of each feature, in order. */
  function FeatureNames(fs: seq<Json>): (r: seq<string>)
    requires JNull !in fs
    ensures |r| == |fs| && forall k :: 0 <= k < |fs| ==> r[k] == FeatureName(fs[k])
  {
    seq(|fs|, k requires 0 <= k < |fs| => FeatureName(fs[k]))
  }

  /** `.filter(Boolean)` on names. */
  function IsName(a: string): bool {
    a != ""
  }

  /** The names of `fs`, in order, without the empty ones. */
  function NamesOf(fs: seq<Json>): (r: seq<string>)
    requires JNull !in fs
    ensures r == Filter(FeatureNames(fs), IsName)
    ensures |r| <= |fs|
    ensures forall a :: a in r ==> a != ""
    ensures forall k :: 0 <= k < |fs| && FeatureName(fs[k]) != "" ==> FeatureName(fs[k]) in r
    decreases |fs|
  {
    if fs == [] then []
    else
      var rest := NamesOf(fs[1..]);
      assert forall k :: 0 < k < |fs| ==> fs[k] == fs[1..][k - 1];
      var name := FeatureName(fs[0]);
      assert FeatureNames(fs)[0] == name && FeatureNames(fs)[1..] == FeatureNames(fs[1..]);
      if name != "" then [name] + rest else rest
  }

  /** `amenities` from the JSON-LD: the truthy feature names in order;
      `None` when a feature is null, since reading `.name` of null throws
      outside the per-script `try`. */
  function StructuredAmenities(data: map<string, Json>): (r: Option<seq<string>>)
    ensures r.None? <==> JNull in Features(data)
    ensures r.Some? ==> r.value == Filter(FeatureNames(Features(data)), IsName)
    ensures r.Some? ==> |r.value| <= |Features(data)| && forall a :: a in r.value ==> a != ""
    ensures r.Some? ==> forall f :: f in Features(data) && f.JString? && f.s != "" ==> f.s in r.value
  {
    var fs := Features(data);
    if JNull in fs then None
    else
      assert forall f :: f in fs && f.JString? && f.s != "" ==> FeatureName(f) == f.s;
      Some(NamesOf(fs))
  }

  /** An amenity to look for in the text, with the source of its pattern. */
  datatype Target = Target(key: string, pattern: string)

  const Targets := [
    Target("Pool", "pool"),
    Target("Hot Tub", "hot tub|jacuzzi"),
    Target("Beachfront", "beach\\s?front|ocean\\s?front|water\\s?front"),
    Target("WiFi", "wifi|wi-fi|internet"),
    Target("Kitchen", "kitchen"),
    Target("AC", "air condition|a\\/c"),
    Target("Pets Allowed", "pets allowed|pet friendly")]

  /** Some amenity of `list` matches `pattern`. */
  predicate AnyMatches(list: seq<string>, pattern: string, test: (string, string) -> bool) {
    exists k :: 0 <= k < |list| && test(pattern, list[k])
  }

  /** One `forEach` step: the key is pushed when no amenity so far matches
      the pattern and the text does. */
  function KeywordStep(amenities: seq<string>, t: Target, text: string, test: (string, string) -> bool): (r: seq<string>)
    ensures r == amenities || r == amenities + [t.key]
    ensures r == amenities + [t.key] <==> !AnyMatches(amenities, t.pattern, test) && test(t.pattern, text)
  {
    if !AnyMatches(amenities, t.pattern, test) && test(t.pattern, text) then amenities + [t.key] else amenities
  }

  /** `targetAmenities.forEach(...)`: the keyword steps in order. */
  function WithKeywords(amenities: seq<string>, targets: seq<Target>, text: string, test: (string, string) -> bool): (r: seq<string>)
    ensures |amenities| <= |r| <= |amenities| + |targets| && r[..|amenities|] == amenities
    decreases |targets|
  {
    if targets == [] then amenities
    else
      var next := KeywordStep(amenities, targets[0], text, test);
      var r := WithKeywords(next, targets[1..], text, test);
      assert r[..|amenities|] == next[..|next|][..|amenities|];
      r
  }

  /** Target `k` found a match for its pattern before the keyword loop. */
  predicate PushedFor(r: seq<string>, j: nat, amenities: seq<string>, targets: seq<Target>, text: string, test: (string, string) -> bool) {
    j < |r| &&
    exists k :: (0 <= k < |targets| && r[j] == targets[k].key &&
                 test(targets[k].pattern, text) && !AnyMatches(amenities, targets[k].pattern, test))
  }

  /** Everything the keyword loop adds is the key of a target whose pattern
      the text matches and no amenity read from the JSON-LD matches. */
  lemma {:induction false} KeywordsOnlyWhenUnmatched(amenities: seq<string>, targets: seq<Target>, text: string, test: (string, string) -> bool)
    ensures forall j: nat :: |amenities| <= j < |WithKeywords(amenities, targets, text, test)| ==>
      PushedFor(WithKeywords(amenities, targets, text, test), j, amenities, targets, text, test)
    decreases |targets|
  {
    if targets != [] {
      var t := targets[0];
      var next := KeywordStep(amenities, t, text, test);
      var r := WithKeywords(next, targets[1..], text, test);
      KeywordsOnlyWhenUnmatched(next, targets[1..], text, test);
      forall j: nat | |amenities| <= j < |r| ensures PushedFor(r, j, amenities, targets, text, test) {
        if j < |next| {
          assert next == amenities + [t.key] && r[j] == next[j] == t.key;
          assert r[j] == targets[0].key;
        } else {
          assert PushedFor(r, j, next, targets[1..], text, test);
          var k :| 0 <= k < |targets[1..]| && r[j] == targets[1..][k].key &&
            test(targets[1..][k].pattern, text) && !AnyMatches(next, targets[1..][k].pattern, test);
          assert next[..|amenities|] == amenities;
          assert !AnyMatches(amenities, targets[k + 1].pattern, test) by {
            forall i | 0 <= i < |amenities| ensures !test(targets[k + 1].pattern, amenities[i]) {
              assert amenities[i] == next[i];
            }
          }
        }
      }
    }
  }

  /** Every target whose pattern the text matches ends up represented: by
      an amenity matching its pattern, or by its key. */
  lemma {:induction false} KeywordsCoverMatches(amenities: seq<string>, targets: seq<Target>, text: string, test: (string, string) -> bool)
    ensures var r := WithKeywords(amenities, targets, text, test);
      forall k :: 0 <= k < |targets| && test(targets[k].pattern, text) ==>
        AnyMatches(r, targets[k].pattern, test) || targets[k].key in r
    decreases |targets|
  {
    if targets != [] {
      var t := targets[0];
      var next := KeywordStep(amenities, t, text, test);
      var r := WithKeywords(next, targets[1..], text, test);
      KeywordsCoverMatches(next, targets[1..], text, test);
      forall k | 0 <= k < |targets| && test(targets[k].pattern, text)
        ensures AnyMatches(r, targets[k].pattern, test) || targets[k].key in r
      {
        if k == 0 {
          assert r[..|next|] == next;
          if AnyMatches(amenities, t.pattern, test) {
            var i :| 0 <= i < |amenities| && test(t.pattern, amenities[i]);
            assert r[i] == next[i] == amenities[i];
          } else {
            assert r[|amenities|] == next[|amenities|] == t.key;
          }
        } else {
          assert targets[k] == targets[1..][k - 1];
        }
      }
    }
  }

  /** The `forEach` loop over the targets, pushing onto `amenities`. */
  method AddKeywordAmenities(structured: seq<string>, targets: seq<Target>, text: string, test: (string, string) -> bool)
    returns (amenities: seq<string>)
    ensures amenities == WithKeywords(structured, targets, text, test)
  {
    amenities := structured;
    var i := 0;
    while i < |targets|
      invariant 0 <= i <= |targets|
      invariant WithKeywords(amenities, targets[i..], text, test) == WithKeywords(structured, targets, text, test)
    {
      assert targets[i..][1..] == targets[i + 1..];
      var item := targets[i];
      if !AnyMatches(amenities, item.pattern, test) && test(item.pattern, text) {
        amenities := amenities + [item.key];
      }
      i := i + 1;
    }
  }

  const AmenityLimit := 8

  /** `[...new Set(amenities)].slice(0, 8)`: the first eight distinct
      amenities in order of first occurrence (the order `Dedupe` keeps is
      pinned down by `Seqs.DedupeSnoc`). */
  function TopAmenities(amenities: seq<string>): (r: seq<string>)
    ensures Distinct(r) && |r| <= AmenityLimit
    ensures forall a :: a in r ==> a in amenities
    ensures |r| == if |Dedupe(amenities)| < AmenityLimit then |Dedupe(amenities)| else AmenityLimit
    ensures r == Dedupe(amenities)[..|r|]
    ensures IsSubsequence(r, amenities)
  {
    var d := Dedupe(amenities);
    var r := Take(d, AmenityLimit);
    assert forall i, j :: 0 <= i < j < |r| ==> r[i] == d[i] && r[j] == d[j];
    assert forall a :: a in r ==> a in d;
    DedupeFromIsSubsequence(amenities, []);
    PrefixOfSubsequence(d, amenities, |r|);
    r
  }

  // ---------------------------------------------------------- room counts

  /** `jsonLdData.numberOfRooms || (jsonLdData.bedroom ? jsonLdData.bedroom.length : null)`,
      `None` standing for `undefined`. */
  function RoomsFromJsonLd(data: map<string, Json>): (r: Option<Json>)
    ensures "numberOfRooms" in data && JsonTruthy(data["numberOfRooms"]) ==> r == Some(data["numberOfRooms"])
    ensures (!("numberOfRooms" in data && JsonTruthy(data["numberOfRooms"])) && "bedroom" in data &&
             data["bedroom"].JArray?) ==> r == Some(JNumber(|data["bedroom"].items| as real))
    ensures (!("numberOfRooms" in data && JsonTruthy(data["numberOfRooms"])) &&
             !("bedroom" in data && JsonTruthy(data["bedroom"]))) ==> r == Some(JNull)
    ensures (!("numberOfRooms" in data && JsonTruthy(data["numberOfRooms"])) && "bedroom" in data &&
             JsonTruthy(data["bedroom"])) ==> r == Get(data["bedroom"], "length")
  {
    if "numberOfRooms" in data && JsonTruthy(data["numberOfRooms"]) then Some(data["numberOfRooms"])
    else if "bedroom" in data && JsonTruthy(data["bedroom"]) then Get(data["bedroom"], "length")
    else Some(JNull)
  }

  /** The `bedrooms` field: the JSON-LD count when truthy, else the count
      the bedroom pattern finds in the text, else null. */
  function BedroomsOf(data: map<string, Json>, text: string, b: Builtins): (r: Json)
    ensures r == JNull || JsonTruthy(r)
    ensures IsTruthy(RoomsFromJsonLd(data)) ==> r == RoomsFromJsonLd(data).value
    ensures !IsTruthy(RoomsFromJsonLd(data)) && b.bedroomsIn(text).Some? && b.bedroomsIn(text).value != 0 ==>
      r == JNumber(b.bedroomsIn(text).value as real)
    ensures !IsTruthy(RoomsFromJsonLd(data)) && (b.bedroomsIn(text).None? || b.bedroomsIn(text).value == 0) ==>
      r == JNull
  {
    var fromJsonLd := RoomsFromJsonLd(data);
    if IsTruthy(fromJsonLd) then fromJsonLd.value
    else
      match b.bedroomsIn(text)
      case Some(n) => if n != 0 then JNumber(n as real) else JNull
      case None => JNull
  }

  /** The `bathrooms` field: the count the bathroom pattern finds, or null
      when it finds none or finds 0. */
  function BathroomsOf(text: string, b: Builtins): (r: Option<real>)
    ensures r.Some? ==> r.value != 0.0 && b.bathroomsIn(text) == r
    ensures r.None? <==> b.bathroomsIn(text).None? || b.bathroomsIn(text).value == 0.0
  {
    match b.bathroomsIn(text)
    case Some(x) => if x != 0.0 then Some(x) else None
    case None => None
  }

  // ------------------------------------------------------------ the reply

  /** `title`, before trimming: the first truthy of the title meta tags, the
      `<title>` text, the first `<h1>` text and the host name without its
      first `www.`. */
  function TitleOf(page: Page, pageUrl: string, b: Builtins): (r: string)
    ensures Truthy(page.ogTitle) ==> r == page.ogTitle.value
    ensures !Truthy(page.ogTitle) && Truthy(page.twitterTitle) ==> r == page.twitterTitle.value
    ensures !Truthy(page.ogTitle) && !Truthy(page.twitterTitle) && page.titleText != "" ==> r == page.titleText
    ensures !Truthy(page.ogTitle) && !Truthy(page.twitterTitle) && page.titleText == "" && page.h1Text != "" ==>
      r == page.h1Text
    ensures !Truthy(page.ogTitle) && !Truthy(page.twitterTitle) && page.titleText == "" && page.h1Text == "" ==>
      r == ReplaceFirst(b.hostname(pageUrl), "www.", "")
  {
    var host := ReplaceFirst(b.hostname(pageUrl), "www.", "");
    var options := [page.ogTitle, page.twitterTitle, Some(page.titleText), Some(page.h1Text), Some(host)];
    var r := FirstTruthy(options, "");
    assert !Truthy(options[0]) && !Truthy(options[1]) && !Truthy(options[2]) && !Truthy(options[3]) && !Truthy(options[4]) ==>
      r == host;
    r
  }

  /** `description`: the `og:description` content, else the description
      meta tag's, else ''. */
  function DescriptionOf(page: Page): (r: string)
    ensures Truthy(page.ogDescription) ==> r == page.ogDescription.value
    ensures !Truthy(page.ogDescription) && Truthy(page.metaDescription) ==> r == page.metaDescription.value
    ensures !Truthy(page.ogDescription) && !Truthy(page.metaDescription) ==> r == ""
  {
    var options := [page.ogDescription, page.metaDescription];
    var r := FirstTruthy(options, "");
    assert Truthy(options[0]) || Truthy(options[1]) ==> r != "";
    r
  }

  const BodyScanLimit := 2000

  /** `headerAndDesc`: the lower-cased title, description and start of the
      body text, searched for room counts and amenity keywords. */
  function HeaderAndDesc(title: string, description: string, bodyText: string): string {
    Lower(title + " " + description + " " + Take(bodyText, BodyScanLimit))
  }

  /** The `details` of a reply. */
  datatype Details = Details(bedrooms: Json, bathrooms: Option<real>, amenities: seq<string>, description: string)

  /** The JSON a successful request answers with. */
  datatype Meta = Meta(title: string, image: string, price: PriceField, details: Details)

  /** What the route extracts from a fetched page; `None` when the extraction
      throws (a null amenity feature). */
  function Extract(page: Page, pageUrl: string, b: Builtins): (r: Option<Meta>)
    ensures r.None? <==> JNull in Features(Merged(page.scripts))
    ensures r.Some? ==> r.value.title == Trim(TitleOf(page, pageUrl, b))
    ensures r.Some? ==> r.value.image == ImageOf(page, pageUrl, b)
    ensures r.Some? ==> r.value.price == PriceOf(TitleOf(page, pageUrl, b) + " " + DescriptionOf(page))
    ensures r.Some? ==> r.value.details.description == Truncate(DescriptionOf(page))
    ensures r.Some? ==> Distinct(r.value.details.amenities) && |r.value.details.amenities| <= AmenityLimit
    ensures r.Some? ==>
      var data := Merged(page.scripts);
      var text := HeaderAndDesc(TitleOf(page, pageUrl, b), DescriptionOf(page), page.bodyText);
      && r.value.details.bedrooms == BedroomsOf(data, text, b)
      && r.value.details.bathrooms == BathroomsOf(text, b)
      && r.value.details.amenities == TopAmenities(WithKeywords(StructuredAmenities(data).value, Targets, text, b.test))
  {
    var title := TitleOf(page, pageUrl, b);
    var description := DescriptionOf(page);
    var data := Merged(page.scripts);
    match StructuredAmenities(data)
    case None => None
    case Some(structured) =>
      var text := HeaderAndDesc(title, description, page.bodyText);
      var amenities := WithKeywords(structured, Targets, text, b.test);
      Some(Meta(Trim(title), ImageOf(page, pageUrl, b), PriceOf(title + " " + description),
                Details(BedroomsOf(data, text, b), BathroomsOf(text, b), TopAmenities(amenities), Truncate(description))))
  }

  /** The request body: `Unreadable` when `request.json()` or the
      destructuring of its result throws, with the error's message. */
  datatype RequestBody = Unreadable(message: string) | Body(url: Option<string>)

  /** The request the route sends for the page. */
  datatype FetchRequest = FetchRequest(url: string, userAgent: string, accept: string)

  const UserAgent := "Mozilla/5.0 (Windows NT 10.0; Win64; x64) AppleWebKit/537.36 (KHTML, like Gecko) Chrome/91.0.4472.124 Safari/537.36"
  const Accept := "text/html,application/xhtml+xml,application/xml;q=0.9,image/webp,*/*;q=0.8"

  /** The answer to that request: `FetchFailed` when `fetch` rejects. */
  datatype FetchOutcome = FetchFailed(message: string) | Fetched(ok: bool, statusText: string, page: Page)

  /** The route's JSON reply: the metadata, or an error with its status. */
  datatype RouteResponse =
    | Found(meta: Meta)
    | Error(status: int, error: string, details: Option<string>)

  const UrlRequired := "URL is required"
  const FetchFailure := "Failed to fetch metadata"
  /** What V8 reports for `null.name`. */
  const NullFeatureMessage := "Cannot read properties of null (reading 'name')"

  /** A handled request: the reply and the page request sent, if any. */
  datatype Handled = Handled(response: RouteResponse, fetched: Option<FetchRequest>)

  /** `POST(request)`, with `outcome` the answer to the page request when
      one is sent. */
  function Respond(body: RequestBody, outcome: FetchOutcome, b: Builtins): (h: Handled)
    ensures body.Unreadable? ==> h == Handled(Error(500, FetchFailure, Some(body.message)), None)
    ensures body.Body? && !Truthy(body.url) ==> h == Handled(Error(400, UrlRequired, None), None)
    // a page is requested exactly when the body names a URL, and always with a scheme
    ensures h.fetched.Some? <==> body.Body? && Truthy(body.url)
    ensures h.fetched.Some? ==> h.fetched.value == FetchRequest(WithProtocol(body.url.value), UserAgent, Accept) &&
                                HasScheme(h.fetched.value.url)
    ensures h.fetched.Some? && outcome.FetchFailed? ==> h.response == Error(500, FetchFailure, Some(outcome.message))
    ensures h.fetched.Some? && outcome.Fetched? && !outcome.ok ==>
      h.response == Error(500, FetchFailure, Some("Failed to fetch URL: " + outcome.statusText))
    ensures h.response.Found? <==>
      (h.fetched.Some? && outcome.Fetched? && outcome.ok && Extract(outcome.page, h.fetched.value.url, b).Some?)
    ensures h.response.Found? ==> h.response.meta == Extract(outcome.page, h.fetched.value.url, b).value
    // a page that fails extraction (a null amenity feature) is caught as a 500
    ensures h.fetched.Some? && outcome.Fetched? && outcome.ok && Extract(outcome.page, h.fetched.value.url, b).None? ==>
      h.response == Error(500, FetchFailure, Some(NullFeatureMessage))
    ensures h.response.Error? ==> h.response.status in {400, 500}
    ensures h.response.Error? && h.response.status == 500 ==> h.response.error == FetchFailure
    ensures h.response.Error? && h.response.status == 400 ==> h.response == Error(400, UrlRequired, None)
  {
    match body
    case Unreadable(message) => Handled(Error(500, FetchFailure, Some(message)), None)
    case Body(url) =>
      if !Truthy(url) then Handled(Error(400, UrlRequired, None), None)
      else
        var target := WithProtocol(url.value);
        var request := FetchRequest(target, UserAgent, Accept);
        match outcome
        case FetchFailed(message) => Handled(Error(500, FetchFailure, Some(message)), Some(request))
        case Fetched(ok, statusText, page) =>
          if !ok then Handled(Error(500, FetchFailure, Some("Failed to fetch URL: " + statusText)), Some(request))
          else
            match Extract(page, target, b)
            case None => Handled(Error(500, FetchFailure, Some(NullFeatureMessage)), Some(request))
            case Some(meta) => Handled(Found(meta), Some(request))
  }

  /** The handler, step by step: the image scan, the JSON-LD merge and the
      keyword loop run as the loops they are. */
  method Post(body: RequestBody, outcome: FetchOutcome, b: Builtins) returns (h: Handled)
    ensures h == Respond(body, outcome, b)
  {
    if body.Unreadable? {
      return Handled(Error(500, FetchFailure, Some(body.message)), None);
    }
    var url := body.url;
    if !Truthy(url) {
      return Handled(Error(400, UrlRequired, None), None);
    }
    var target := WithProtocol(url.value);
    var request := FetchRequest(target, UserAgent, Accept);
    if outcome.FetchFailed? {
      return Handled(Error(500, FetchFailure, Some(outcome.message)), Some(request));
    }
    if !outcome.ok {
      return Handled(Error(500, FetchFailure, Some("Failed to fetch URL: " + outcome.statusText)), Some(request));
    }
    var page := outcome.page;
    var title := TitleOf(page, target, b);
    var image := FirstTruthy([page.ogImage, page.twitterImage, page.imageSrcLink], "");
    if image == "" {
      image := ScanImages(page.imgs, target, b);
    }
    var description := DescriptionOf(page);
    var price := PriceOf(title + " " + description);
    var data := MergeJsonLd(page.scripts);
    var structured := StructuredAmenities(data);
    if structured.None? {
      return Handled(Error(500, FetchFailure, Some(NullFeatureMessage)), Some(request));
    }
    var text := HeaderAndDesc(title, description, page.bodyText);
    var bedrooms := BedroomsOf(data, text, b);
    var bathrooms := BathroomsOf(text, b);
    var amenities := AddKeywordAmenities(structured.value, Targets, text, b.test);
    var meta := Meta(Trim(title), image, price, Details(bedrooms, bathrooms, TopAmenities(amenities), Truncate(description)));
    h := Handled(Found(meta), Some(request));
  }
}
