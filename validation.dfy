/**
 * Input validation and store-URL normalisation (src/lib/validation.ts): the
 * URL normaliser, the URL-shape check, the form schema's field rules and the
 * client-side per-field validators.
 */
module Validation {
  import opened Wrappers
  import opened JsMath
  import opened JsText
  import opened JsParse

  // ---------------------------------------------------------------------------
  // Store URL normalisation
  // ---------------------------------------------------------------------------

  /** `s.replace(/^https?:\/\//, '')`: at most one leading protocol removed. */
  function StripProtocol(s: string): (r: string)
    ensures |r| <= |s| && r == s[|s| - |r|..]
    ensures "https://" <= s ==> s == "https://" + r
    ensures !("https://" <= s) && "http://" <= s ==> s == "http://" + r
    ensures !("https://" <= s) && !("http://" <= s) ==> r == s
  {
    if "https://" <= s then s[8..] else if "http://" <= s then s[7..] else s
  }

  /** `s.replace(/^www\./, '')`: at most one leading "www." removed. */
  function StripWww(s: string): (r: string)
    ensures |r| <= |s| && r == s[|s| - |r|..]
    ensures "www." <= s ==> s == "www." + r
    ensures !("www." <= s) ==> r == s
  {
    StripPrefix(s, "www.")
  }

  predicate NoAsciiUpper(s: string) {
    forall i | 0 <= i < |s| :: !IsAsciiUpper(s[i])
  }

  lemma NoAsciiUpperSlice(s: string, a: nat, b: nat)
    requires NoAsciiUpper(s) && a <= b <= |s|
    ensures NoAsciiUpper(s[a..b])
  {
    forall i | 0 <= i < b - a ensures !IsAsciiUpper(s[a..b][i]) {
      assert s[a..b][i] == s[a + i];
    }
  }

  /** The part of the stored URL after "https://". */
  function StoredHost(url: string): (host: string)
    ensures NoAsciiUpper(host)
    ensures host == [] || host[|host| - 1] != '/'
  {
    var lowered := ToLower(Trim(url));
    var unprefixed := StripProtocol(lowered);
    NoAsciiUpperSlice(lowered, |lowered| - |unprefixed|, |lowered|);
    var stripped := TrimTrailingSlashes(unprefixed);
    NoAsciiUpperSlice(unprefixed, 0, |stripped|);
    var host := StripWww(stripped);
    NoAsciiUpperSlice(stripped, |stripped| - |host|, |stripped|);
    host
  }

  /**
   * normalizeStoreUrl: trim, lower-case, drop one protocol, drop trailing
   * slashes, drop one "www.", then prefix "https://".
   */
  function NormalizeStoreUrl(url: string): (r: string)
    ensures "https://" <= r
    ensures |r| == 8 || r[|r| - 1] != '/'
    ensures NoAsciiUpper(r)
  {
    var host := StoredHost(url);
    HttpsPrefixed(host);
    "https://" + host
  }

  lemma HttpsPrefixed(host: string)
    requires NoAsciiUpper(host)
    requires host == [] || host[|host| - 1] != '/'
    ensures var r := "https://" + host;
      "https://" <= r && (|r| == 8 || r[|r| - 1] != '/') && NoAsciiUpper(r)
  {
    var r := "https://" + host;
    assert r[..8] == "https://";
    forall i | 0 <= i < |r| ensures !IsAsciiUpper(r[i]) {
      if i >= 8 {
        assert r[i] == host[i - 8];
      }
    }
  }

  /**
   * A host that is already in stored form: lower-case, no protocol or "www."
   * in front, and not ending in whitespace or a slash.
   */
  predicate IsCanonicalHost(host: string) {
    (forall i | 0 <= i < |host| :: !IsAsciiUpper(host[i]))
    && !("https://" <= host) && !("http://" <= host) && !("www." <= host)
    && (host == [] || (!IsJsWhitespace(host[|host| - 1]) && host[|host| - 1] != '/'))
  }

  /** Lower-case, and not ending in whitespace or a slash. */
  predicate IsCleanTail(t: string) {
    NoAsciiUpper(t) && (t == [] || (!IsJsWhitespace(t[|t| - 1]) && t[|t| - 1] != '/'))
  }

  /** Trimming and lower-casing leave a URL made of "https://" and a clean tail alone. */
  lemma CleanHttpsUrl(host: string)
    requires IsCleanTail(host)
    ensures ToLower(Trim("https://" + host)) == "https://" + host
  {
    var url := "https://" + host;
    HttpsEnds(host);
    TrimUnchanged(url);
    HttpsPrefixed(host);
    ToLowerUnchanged(url);
  }

  lemma HttpsEnds(host: string)
    requires host == [] || !IsJsWhitespace(host[|host| - 1])
    ensures var url := "https://" + host; url[0] == 'h' && !IsJsWhitespace(url[|url| - 1])
  {
    var url := "https://" + host;
    if host == [] {
      assert url == "https://";
    } else {
      assert url[|url| - 1] == host[|host| - 1];
    }
  }

  /** The stored host of a URL that trimming and lower-casing leave alone. */
  lemma StoredHostOfClean(url: string)
    requires ToLower(Trim(url)) == url
    ensures StoredHost(url) == StripWww(TrimTrailingSlashes(StripProtocol(url)))
  {
  }

  /** Dropping one protocol from "https://" and a canonical host leaves the host. */
  lemma ProtocolOfHttpsUrl(host: string)
    ensures StripProtocol("https://" + host) == host
  {
    var url := "https://" + host;
    assert url[..8] == "https://";
    assert url[8..] == host;
  }

  /** Slash trimming and "www." stripping leave a canonical host alone. */
  lemma CanonicalHostUntouched(host: string)
    requires IsCanonicalHost(host)
    ensures TrimTrailingSlashes(host) == host && StripWww(host) == host
  {
  }

  /** A stored URL with a canonical host is its own normal form. */
  lemma NormalizeKeepsCanonical(host: string)
    requires IsCanonicalHost(host)
    ensures NormalizeStoreUrl("https://" + host) == "https://" + host
  {
    CleanHttpsUrl(host);
    StoredHostOfClean("https://" + host);
    ProtocolOfHttpsUrl(host);
    CanonicalHostUntouched(host);
  }

  lemma TrimOfExample(u: string)
    requires u == "WWW.www.Shop.com/"
    ensures Trim(u) == u
  {
    assert u[0] == 'W' && u[|u| - 1] == '/';
    TrimUnchanged(u);
  }

  lemma LowerOfExample(u: string)
    requires u == "WWW.www.Shop.com/"
    ensures ToLower(u) == "www.www.shop.com/"
  {
    var l := "www.www.shop.com/";
    forall i | 0 <= i < |u| ensures ToLower(u)[i] == l[i] {
    }
  }

  lemma SlashOfExample(l: string)
    requires l == "www.www.shop.com/"
    ensures StripProtocol(l) == l
    ensures TrimTrailingSlashes(l) == "www.www.shop.com"
  {
    assert l[0] == 'w';
    var t := "www.www.shop.com";
    assert l[..|l| - 1] == t && t[|t| - 1] == 'm';
  }

  lemma WwwOfExample(t: string)
    requires t == "www.www.shop.com"
    ensures StripWww(t) == "www.shop.com"
  {
    assert t[..4] == "www.";
  }

  lemma StoredHostOfExample(u: string)
    requires u == "WWW.www.Shop.com/"
    ensures StoredHost(u) == "www.shop.com"
  {
    TrimOfExample(u);
    LowerOfExample(u);
    SlashOfExample(ToLower(Trim(u)));
    WwwOfExample(TrimTrailingSlashes(StripProtocol(ToLower(Trim(u)))));
  }

  /** The worked example: only one "www." goes, and case and the trailing slash do. */
  lemma NormalizeExample(url: string)
    requires url == "WWW.www.Shop.com/"
    ensures NormalizeStoreUrl(url) == "https://www.shop.com"
  {
    StoredHostOfExample(url);
    HttpsOfExample(StoredHost(url));
  }

  lemma HttpsOfExample(host: string)
    requires host == "www.shop.com"
    ensures "https://" + host == "https://www.shop.com"
  {
  }

  lemma TrimOfDoubled(u: string)
    requires u == "https://https://shop.com"
    ensures Trim(u) == u
  {
    assert u[0] == 'h' && u[|u| - 1] == 'm';
    TrimUnchanged(u);
  }

  lemma LowerOfDoubled(u: string)
    requires u == "https://https://shop.com"
    ensures ToLower(u) == u
  {
    assert forall i | 0 <= i < |u| :: !IsAsciiUpper(u[i]);
    ToLowerUnchanged(u);
  }

  lemma TailOfDoubled(u: string)
    requires u == "https://https://shop.com"
    ensures "https://" <= u && u[8..] == "https://shop.com"
  {
    assert u[..8] == "https://";
  }

  lemma RestOfDoubled(v: string)
    requires v == "https://shop.com"
    ensures TrimTrailingSlashes(v) == v && StripWww(v) == v
  {
    assert v[|v| - 1] == 'm';
    assert v[0] == 'h';
  }

  lemma StoredHostOfDoubled(u: string)
    requires u == "https://https://shop.com"
    ensures StoredHost(u) == "https://shop.com"
  {
    TrimOfDoubled(u);
    LowerOfDoubled(u);
    StoredHostOfClean(u);
    TailOfDoubled(u);
    RestOfDoubled(u[8..]);
  }

  lemma HttpsOfDoubled(host: string)
    requires host == "https://shop.com"
    ensures "https://" + host == "https://https://shop.com"
  {
  }

  lemma ShopIsCanonical(host: string)
    requires host == "shop.com"
    ensures IsCanonicalHost(host)
  {
    assert host[0] == 's' && host[|host| - 1] == 'm';
  }

  /** Only one protocol is removed: a doubled protocol survives normalisation. */
  lemma NormalizeStripsOneProtocol(url: string)
    requires url == "https://https://shop.com"
    ensures NormalizeStoreUrl(url) == url
    ensures NormalizeStoreUrl(url[8..]) == "https://shop.com"
  {
    StoredHostOfDoubled(url);
    HttpsOfDoubled(StoredHost(url));
    ShopIsCanonical("shop.com");
    NormalizeKeepsCanonical("shop.com");
    TailOfDoubled(url);
    HttpsOfShop(url[8..]);
  }

  lemma HttpsOfShop(v: string)
    requires v == "https://shop.com"
    ensures v == "https://" + "shop.com"
  {
  }

  /** "www." in front of a clean tail: still clean, and the "www." strip removes it again. */
  lemma WwwTail(t: string)
    requires IsCleanTail(t)
    ensures IsCleanTail("www." + t)
    ensures TrimTrailingSlashes("www." + t) == "www." + t
    ensures StripWww("www." + t) == t
  {
    var w := "www." + t;
    assert w[..4] == "www.";
    if t != [] {
      assert w[|w| - 1] == t[|t| - 1];
    }
    forall i | 0 <= i < |w| ensures !IsAsciiUpper(w[i]) {
      if i >= 4 {
        assert w[i] == t[i - 4];
      }
    }
  }

  /** "https://www." and a clean tail normalises to "https://" and the tail: one "www." goes. */
  lemma NormalizeOfHttpsWww(t: string)
    requires IsCleanTail(t)
    ensures NormalizeStoreUrl("https://www." + t) == "https://" + t
  {
    var w := "www." + t;
    var url := "https://" + w;
    assert url == "https://www." + t;
    WwwTail(t);
    CleanHttpsUrl(w);
    StoredHostOfClean(url);
    ProtocolOfHttpsUrl(w);
  }

  /**
   * Normalisation is not idempotent: only one "www." goes per pass, so
   * "https://www.www." and a host normalises to "https://www." and the host,
   * and normalising that again removes the second "www.".
   */
  lemma NormalizeNotIdempotent(host: string)
    requires IsCleanTail(host)
    ensures var once := NormalizeStoreUrl("https://www.www." + host);
      && once == "https://www." + host
      && NormalizeStoreUrl(once) == "https://" + host
      && NormalizeStoreUrl(once) != once
  {
    var w := "www." + host;
    assert "https://www.www." + host == "https://www." + w;
    assert "https://" + w == "https://www." + host;
    WwwTail(host);
    NormalizeOfHttpsWww(w);
    NormalizeOfHttpsWww(host);
  }

  // ---------------------------------------------------------------------------
  // The store URL shape check: /^[a-zA-Z0-9][a-zA-Z0-9-]*(\.[a-zA-Z0-9-]+)+/
  // ---------------------------------------------------------------------------

  predicate IsAlnum(c: char) {
    'a' <= c <= 'z' || 'A' <= c <= 'Z' || '0' <= c <= '9'
  }

  predicate IsLabelChar(c: char) {
    IsAlnum(c) || c == '-'
  }

  predicate AllLabelChars(s: string) {
    forall i | 0 <= i < |s| :: IsLabelChar(s[i])
  }

  /** The language of `(\.[a-zA-Z0-9-]+)+`: one or more dot-label groups. */
  ghost predicate IsDotLabels(g: string)
    decreases |g|
  {
    |g| >= 2 && g[0] == '.'
    && exists j | 2 <= j <= |g| :: AllLabelChars(g[1..j]) && (j == |g| || IsDotLabels(g[j..]))
  }

  /** The language of the whole pattern (without the anchor). */
  ghost predicate InPatternLanguage(p: string) {
    |p| >= 1 && IsAlnum(p[0])
    && exists i | 1 <= i <= |p| :: AllLabelChars(p[1..i]) && IsDotLabels(p[i..])
  }

  /** RegExp.prototype.test with the pattern anchored only at the start: some prefix matches. */
  ghost predicate MatchesUrlPattern(s: string) {
    exists k | 0 <= k <= |s| :: InPatternLanguage(s[..k])
  }

  /** The end of the run of label characters that starts at position from. */
  function LabelEnd(s: string, from: nat): (e: nat)
    requires from <= |s|
    ensures from <= e <= |s| && AllLabelChars(s[from..e])
    ensures e == |s| || !IsLabelChar(s[e])
    decreases |s| - from
  {
    if from < |s| && IsLabelChar(s[from]) then LabelEnd(s, from + 1) else from
  }

  /**
   * The matcher: an alphanumeric first character, the longest run of label
   * characters, then a dot and at least one label character. Later groups
   * need not be looked at, since nothing anchors the end.
   */
  function TestUrlPattern(s: string): bool {
    |s| >= 1 && IsAlnum(s[0])
    && var i := LabelEnd(s, 1);
       i + 1 < |s| && s[i] == '.' && IsLabelChar(s[i + 1])
  }

  /** Whatever the matcher accepts, the regular expression matches (a prefix of length i + 2). */
  lemma ScanImpliesRegex(s: string)
    requires TestUrlPattern(s)
    ensures MatchesUrlPattern(s)
  {
    var i := LabelEnd(s, 1);
    var p := s[..i + 2];
    assert p[1..i] == s[1..i];
    var g := p[i..];
    assert g == ['.', s[i + 1]];
    assert AllLabelChars(g[1..2]);
    assert IsDotLabels(g);
    assert AllLabelChars(p[1..i]) && IsDotLabels(p[i..]);
    assert InPatternLanguage(p);
  }

  /** A run of label characters ended by another character is what LabelEnd finds. */
  lemma {:induction false} LabelEndAt(s: string, from: nat, i: nat)
    requires from <= i < |s| && AllLabelChars(s[from..i]) && !IsLabelChar(s[i])
    ensures LabelEnd(s, from) == i
    decreases i - from
  {
    if from < i {
      assert s[from..i][0] == s[from];
      assert s[from + 1..i] == s[from..i][1..];
      LabelEndAt(s, from + 1, i);
    }
  }

  /** Whatever the regular expression matches, the matcher accepts. */
  lemma RegexImpliesScan(s: string)
    requires MatchesUrlPattern(s)
    ensures TestUrlPattern(s)
  {
    var k :| 0 <= k <= |s| && InPatternLanguage(s[..k]);
    var p := s[..k];
    var i :| 1 <= i <= |p| && AllLabelChars(p[1..i]) && IsDotLabels(p[i..]);
    var g := p[i..];
    var j :| 2 <= j <= |g| && AllLabelChars(g[1..j]) && (j == |g| || IsDotLabels(g[j..]));
    assert s[i] == '.' && IsLabelChar(s[i + 1]) by {
      assert p[i] == s[i] && p[i + 1] == s[i + 1];
      assert g[0] == s[i];
      assert g[1..j][0] == s[i + 1];
    }
    assert s[1..i] == p[1..i];
    LabelEndAt(s, 1, i);
  }

  /** The matcher accepts exactly the strings the regular expression matches. */
  lemma TestUrlPatternIsRegex(s: string)
    ensures TestUrlPattern(s) <==> MatchesUrlPattern(s)
  {
    if TestUrlPattern(s) {
      ScanImpliesRegex(s);
    }
    if MatchesUrlPattern(s) {
      RegexImpliesScan(s);
    }
  }

  /** The storeUrl refinement: strip one protocol and one "www." (case-sensitively), then test the pattern. */
  function StoreUrlShapeOk(url: string): bool {
    TestUrlPattern(StripWww(StripProtocol(url)))
  }

  /** A URL starting with neither 'h' nor 'w' is matched against the pattern unchanged. */
  lemma NothingStripped(url: string)
    requires url != [] && url[0] != 'h' && url[0] != 'w'
    ensures StripWww(StripProtocol(url)) == url
  {
    assert "https://"[0] == 'h' && "http://"[0] == 'h' && "www."[0] == 'w';
  }

  /** One protocol and one "www." in front of the host are stripped before the test. */
  lemma PrefixesStripped(host: string)
    ensures StripWww(StripProtocol("https://www." + host)) == host
  {
    var url := "https://www." + host;
    assert url[..8] == "https://";
    var rest := url[8..];
    assert rest == "www." + host;
    assert rest[..4] == "www.";
  }

  /** Nothing anchors the end: text after a string that passes the test does not matter. */
  lemma PatternIgnoresTrailingText(s: string, rest: string)
    requires TestUrlPattern(s)
    ensures TestUrlPattern(s + rest)
  {
    var i := LabelEnd(s, 1);
    var t := s + rest;
    assert t[1..i] == s[1..i];
    assert t[0] == s[0] && t[i] == s[i] && t[i + 1] == s[i + 1];
    LabelEndAt(t, 1, i);
  }

  /** A name, a dot and a label: the pattern accepts it ("mystore.com", say). */
  lemma PatternAcceptsDottedName(name: string, tld: string)
    requires name != [] && IsAlnum(name[0]) && AllLabelChars(name[1..])
    requires tld != [] && IsLabelChar(tld[0])
    ensures TestUrlPattern(name + "." + tld)
  {
    var s := name + "." + tld;
    var i := |name|;
    assert s[1..i] == name[1..];
    assert s[0] == name[0] && s[i] == '.' && s[i + 1] == tld[0];
    LabelEndAt(s, 1, i);
  }

  /** A bare domain that starts with neither 'h' nor 'w' has the expected shape as it is. */
  lemma ShapeAcceptsDomain(name: string, tld: string)
    requires name != [] && IsAlnum(name[0]) && AllLabelChars(name[1..])
    requires name[0] != 'h' && name[0] != 'w'
    requires tld != [] && IsLabelChar(tld[0])
    ensures StoreUrlShapeOk(name + "." + tld)
  {
    PatternAcceptsDottedName(name, tld);
    assert (name + "." + tld)[0] == name[0];
    NothingStripped(name + "." + tld);
  }

  /** A protocol and "www." in front of a host of the right shape, and anything after it, are accepted. */
  lemma ShapeAcceptsFullUrl(host: string, rest: string)
    requires TestUrlPattern(host)
    ensures StoreUrlShapeOk("https://www." + host + rest)
  {
    PatternIgnoresTrailingText(host, rest);
    PrefixesStripped(host + rest);
    assert "https://www." + host + rest == "https://www." + (host + rest);
  }

  /** A URL without a dot is rejected. */
  lemma ShapeRejectsNoDot(url: string)
    requires forall i | 0 <= i < |url| :: url[i] != '.'
    ensures !StoreUrlShapeOk(url)
  {
    var p := StripProtocol(url);
    var s := StripWww(p);
    if |s| >= 1 {
      var i := LabelEnd(s, 1);
      if i < |s| {
        assert s[i] == p[|p| - |s| + i] == url[|url| - |p| + |p| - |s| + i];
      }
    }
  }

  /** A leading hyphen is rejected. */
  lemma ShapeRejectsLeadingHyphen(url: string)
    requires url != [] && url[0] == '-'
    ensures !StoreUrlShapeOk(url)
  {
    NothingStripped(url);
  }

  /** The protocol is stripped case-sensitively, so an upper-case one is rejected. */
  lemma ShapeRejectsUpperCaseProtocol(host: string)
    ensures !StoreUrlShapeOk("HTTPS://" + host)
  {
    var url := "HTTPS://" + host;
    assert url[0] == 'H' && url[1] == 'T' && url[2] == 'T' && url[3] == 'P' && url[4] == 'S' && url[5] == ':';
    NothingStripped(url);
    assert AllLabelChars(url[1..5]);
    LabelEndAt(url, 1, 5);
  }

  // ---------------------------------------------------------------------------
  // Monthly revenue ranges
  // ---------------------------------------------------------------------------

  datatype RevenueRange = Under50k | From50kTo150k | From150kTo500k | Over500k

  /** The value a range is submitted as. */
  function RangeValue(r: RevenueRange): string {
    match r
    case Under50k => "under-50k"
    case From50kTo150k => "50k-150k"
    case From150kTo500k => "150k-500k"
    case Over500k => "500k-plus"
  }

  /** The label a range is shown with. */
  function RangeLabel(r: RevenueRange): string {
    match r
    case Under50k => "Under $50k/month"
    case From50kTo150k => "$50k \U{2013} $150k/month"
    case From150kTo500k => "$150k \U{2013} $500k/month"
    case Over500k => "$500k+/month"
  }

  /** REVENUE_RANGES, in display order. */
  const RevenueRanges: seq<RevenueRange> := [Under50k, From50kTo150k, From150kTo500k, Over500k]

  /** The enum check: a submitted string names a range exactly when it is one of the four values. */
  function ParseRevenueRange(v: string): (r: Option<RevenueRange>)
    ensures r.Some? ==> RangeValue(r.value) == v
    ensures r.None? ==> forall range :: RangeValue(range) != v
  {
    if v == "under-50k" then Some(Under50k)
    else if v == "50k-150k" then Some(From50kTo150k)
    else if v == "150k-500k" then Some(From150kTo500k)
    else if v == "500k-plus" then Some(Over500k)
    else None
  }

  /** Every range is listed once, and each one's value parses back to it. */
  lemma RevenueRangesRoundTrip()
    ensures forall range :: range in RevenueRanges
    ensures forall i, j | 0 <= i < j < |RevenueRanges| :: RevenueRanges[i] != RevenueRanges[j]
    ensures forall range :: ParseRevenueRange(RangeValue(range)) == Some(range)
  {
    forall range ensures range in RevenueRanges && ParseRevenueRange(RangeValue(range)) == Some(range) {
      match range
      case Under50k => assert RevenueRanges[0] == range;
      case From50kTo150k => assert RevenueRanges[1] == range;
      case From150kTo500k => assert RevenueRanges[2] == range;
      case Over500k => assert RevenueRanges[3] == range;
    }
  }

  // ---------------------------------------------------------------------------
  // The form schema (diagnosticFormSchema)
  // ---------------------------------------------------------------------------

  /** A field of the submitted JSON object, before validation. */
  datatype Raw = Absent | Null | Str(s: string) | Num(x: real) | OtherJson

  /** An issue's message: one the schema spells out, or one of the library's own. */
  datatype Message =
    | FirstNameRequired | FirstNameTooLong
    | EmailRequired | EmailInvalid | EmailTooLong
    | StoreUrlRequired | StoreUrlTooLong | StoreUrlInvalid
    | NotANumber(rule: NumberRule) | NotWhole(rule: NumberRule)
    | Negative(rule: NumberRule) | TooHigh(rule: NumberRule)
    | Required | WrongType | NotAnOption
  {
    /** Whether the schema spells the message out, rather than leaving it to the library. */
    predicate spelledOut() {
      !(Required? || WrongType? || NotAnOption?)
    }

    /** The schema's wording. */
    function text(): string
      requires spelledOut()
      requires NotWhole? ==> rule.whole()
      requires TooHigh? ==> rule.max().Some?
    {
      match this
      case FirstNameRequired => "First name is required"
      case FirstNameTooLong => "First name is too long"
      case EmailRequired => "Email is required"
      case EmailInvalid => "Please enter a valid email address"
      case EmailTooLong => "Email is too long"
      case StoreUrlRequired => "Store URL is required"
      case StoreUrlTooLong => "URL is too long"
      case StoreUrlInvalid => "Please enter a valid store URL (e.g., mystore.com or mystore.myshopify.com)"
      case NotANumber(rule) => rule.typeMessage()
      case NotWhole(rule) => rule.wholeMessage()
      case Negative(rule) => rule.negativeMessage()
      case TooHigh(rule) => rule.tooHighMessage()
    }
  }

  datatype Field =
    | FirstName | Email | StoreUrl | Sessions30d | Orders30d
    | ConversionRate | Aov | AbandonedCarts30d | MonthlyRevenueRange

  datatype Issue = Issue(field: Field, message: Message)

  /** The issue for a value of the wrong JSON type; a missing field is "Required". */
  function TypeIssue(raw: Raw, invalidType: Message): (m: Message)
    ensures raw.Absent? ==> m == Required
    ensures !raw.Absent? ==> m == invalidType
  {
    if raw.Absent? then Required else invalidType
  }

  /** `message` when `failed`, otherwise nothing: one check of a field. */
  function Check(failed: bool, message: Message): (ms: seq<Message>)
    ensures ms == [] <==> !failed
    ensures failed ==> ms == [message]
  {
    if failed then [message] else []
  }

  /** firstName: 1 to 100 UTF-16 units, then trimmed. */
  function ParseFirstName(raw: Raw): (r: Result<string, seq<Message>>)
    ensures r.Success? <==> raw.Str? && 1 <= Utf16Length(raw.s) <= 100
    ensures r.Success? ==> r.value == Trim(raw.s)
    ensures r.Failure? ==> r.error != []
  {
    if !raw.Str? then Failure([TypeIssue(raw, WrongType)])
    else
      var n := Utf16Length(raw.s);
      var issues := Check(n < 1, FirstNameRequired) + Check(n > 100, FirstNameTooLong);
      if issues == [] then Success(Trim(raw.s)) else Failure(issues)
  }

  /**
   * email: non-empty, accepted by the library's address check (a parameter),
   * at most 255 UTF-16 units; then trimmed and lower-cased.
   */
  function ParseEmail(raw: Raw, isEmail: string -> bool): (r: Result<string, seq<Message>>)
    ensures r.Success? <==> raw.Str? && 1 <= Utf16Length(raw.s) <= 255 && isEmail(raw.s)
    ensures r.Success? ==> r.value == ToLower(Trim(raw.s))
    ensures r.Failure? ==> r.error != []
  {
    if !raw.Str? then Failure([TypeIssue(raw, WrongType)])
    else
      var n := Utf16Length(raw.s);
      var issues := Check(n < 1, EmailRequired)
        + Check(!isEmail(raw.s), EmailInvalid)
        + Check(n > 255, EmailTooLong);
      if issues == [] then Success(ToLower(Trim(raw.s))) else Failure(issues)
  }

  /**
   * storeUrl: 1 to 500 UTF-16 units and of the expected shape; then
   * normalised. The shape check runs even when a length check failed.
   */
  function ParseStoreUrl(raw: Raw): (r: Result<string, seq<Message>>)
    ensures r.Success? <==> raw.Str? && 1 <= Utf16Length(raw.s) <= 500 && StoreUrlShapeOk(raw.s)
    ensures r.Success? ==> r.value == NormalizeStoreUrl(raw.s)
    ensures r.Failure? ==> r.error != []
  {
    if !raw.Str? then Failure([TypeIssue(raw, WrongType)])
    else
      var issues := StoreUrlIssues(raw.s);
      if issues == [] then Success(NormalizeStoreUrl(raw.s)) else Failure(issues)
  }

  function StoreUrlIssues(url: string): (issues: seq<Message>)
    ensures issues == [] <==> 1 <= Utf16Length(url) <= 500 && StoreUrlShapeOk(url)
  {
    var n := Utf16Length(url);
    Check(n < 1, StoreUrlRequired)
    + Check(n > 500, StoreUrlTooLong)
    + Check(!StoreUrlShapeOk(url), StoreUrlInvalid)
  }

  /** The checks of one numeric field and their messages. */
  datatype NumberRule = SessionsRule | OrdersRule | ConversionRateRule | AovRule | AbandonedCartsRule
  {
    function typeMessage(): string {
      match this
      case SessionsRule => "Sessions must be a number"
      case OrdersRule => "Orders must be a number"
      case ConversionRateRule => "Conversion rate must be a number"
      case AovRule => "AOV must be a number"
      case AbandonedCartsRule => "Abandoned carts must be a number"
    }

    /** Whether the field must be a whole number (`.int()`). */
    predicate whole() {
      this in {SessionsRule, OrdersRule, AbandonedCartsRule}
    }

    /** The message of the `.int()` check; only the whole-number fields have one. */
    function wholeMessage(): string
      requires whole()
    {
      match this
      case SessionsRule => "Sessions must be a whole number"
      case OrdersRule => "Orders must be a whole number"
      case AbandonedCartsRule => "Abandoned carts must be a whole number"
    }

    function negativeMessage(): string {
      match this
      case SessionsRule => "Sessions cannot be negative"
      case OrdersRule => "Orders cannot be negative"
      case ConversionRateRule => "Conversion rate cannot be negative"
      case AovRule => "AOV cannot be negative"
      case AbandonedCartsRule => "Abandoned carts cannot be negative"
    }

    /** The upper bound (`.max()`); abandoned carts have none. */
    function max(): Option<real> {
      match this
      case SessionsRule => Some(100000000.0)
      case OrdersRule => Some(10000000.0)
      case ConversionRateRule => Some(20.0)
      case AovRule => Some(5000.0)
      case AbandonedCartsRule => None
    }

    function tooHighMessage(): string
      requires max().Some?
    {
      match this
      case SessionsRule => "Sessions value seems too high"
      case OrdersRule => "Orders value seems too high"
      case ConversionRateRule => "Conversion rate cannot exceed 20%"
      case AovRule => "AOV cannot exceed $5,000"
    }
  }

  /** The bounds a rule admits. */
  predicate Admits(rule: NumberRule, x: real) {
    (rule.whole() ==> IsInteger(x))
    && 0.0 <= x
    && (rule.max().Some? ==> x <= rule.max().value)
  }

  /** A number field: every check runs and each failure adds its message, in order. */
  function ParseNumber(rule: NumberRule, raw: Raw): (r: Result<real, seq<Message>>)
    ensures r.Success? <==> raw.Num? && Admits(rule, raw.x)
    ensures r.Success? ==> r.value == raw.x
    ensures !raw.Num? ==> r == Failure([TypeIssue(raw, NotANumber(rule))])
    ensures r.Failure? ==> r.error != []
  {
    if !raw.Num? then Failure([TypeIssue(raw, NotANumber(rule))])
    else
      var x := raw.x;
      var issues :=
        (if rule.whole() then Check(!IsInteger(x), NotWhole(rule)) else [])
        + Check(x < 0.0, Negative(rule))
        + (if rule.max().Some? then Check(x > rule.max().value, TooHigh(rule)) else []);
      if issues == [] then Success(x) else Failure(issues)
  }

  /** The checks do not stop at the first failure: a negative fraction gets both messages, in order. */
  lemma ParseNumberCollectsAll(rule: NumberRule, x: real)
    requires rule.whole() && !IsInteger(x) && x < 0.0
    ensures ParseNumber(rule, Num(x)) == Failure([NotWhole(rule), Negative(rule)])
  {
    var q := if rule.max().Some? then Check(x > rule.max().value, TooHigh(rule)) else [];
    assert q == [] by {
      assert rule.max().Some? ==> rule.max().value > 0.0;
    }
    assert Check(!IsInteger(x), NotWhole(rule)) + Check(x < 0.0, Negative(rule)) + q
        == [NotWhole(rule), Negative(rule)];
  }

  /** A value above the bound gets the bound's message alone. */
  lemma ParseNumberTooHigh(rule: NumberRule, x: real)
    requires rule.max().Some? && x > rule.max().value && (rule.whole() ==> IsInteger(x))
    ensures ParseNumber(rule, Num(x)) == Failure([TooHigh(rule)])
  {
    var p := if rule.whole() then Check(!IsInteger(x), NotWhole(rule)) else [];
    assert p == [];
    assert rule.max().value > 0.0;
    assert p + Check(x < 0.0, Negative(rule)) + Check(x > rule.max().value, TooHigh(rule)) == [TooHigh(rule)];
  }

  /** monthlyRevenueRange: optional and nullable; otherwise one of the four values. */
  function ParseRange(raw: Raw): (r: Result<Option<RevenueRange>, seq<Message>>)
    ensures r == Success(None) <==> raw.Absent? || raw.Null?
    ensures (exists range :: r == Success(Some(range))) <==> raw.Str? && ParseRevenueRange(raw.s).Some?
    ensures r.Success? && r.value.Some? ==> raw == Str(RangeValue(r.value.value))
    ensures r.Failure? ==> r.error != []
  {
    if raw.Absent? || raw.Null? then Success(None)
    else if !raw.Str? then Failure([WrongType])
    else match ParseRevenueRange(raw.s)
      case Some(range) => Success(Some(range))
      case None => Failure([NotAnOption])
  }

  /** The submitted object, field by field (unknown keys are dropped). */
  datatype RawForm = RawForm(
    firstName: Raw, email: Raw, storeUrl: Raw,
    sessions30d: Raw, orders30d: Raw, conversionRate: Raw, aov: Raw,
    abandonedCarts30d: Raw, monthlyRevenueRange: Raw)

  /** DiagnosticFormData: the validated, transformed form. */
  datatype FormData = FormData(
    firstName: string, email: string, storeUrl: string,
    sessions30d: int, orders30d: int, conversionRate: real, aov: real,
    abandonedCarts30d: int, monthlyRevenueRange: Option<RevenueRange>)

  /** The numeric bounds every accepted form satisfies. */
  predicate MetricsInBounds(d: FormData) {
    0 <= d.sessions30d <= 100000000
    && 0 <= d.orders30d <= 10000000
    && 0.0 <= d.conversionRate <= 20.0
    && 0.0 <= d.aov <= 5000.0
    && 0 <= d.abandonedCarts30d
  }

  /** The issues of one field, tagged with the field. */
  function IssuesOf<T>(field: Field, r: Result<T, seq<Message>>): (issues: seq<Issue>)
    ensures r.Success? ==> issues == []
    ensures r.Failure? ==> |issues| == |r.error|
    ensures r.Failure? ==> forall i | 0 <= i < |issues| :: issues[i].message == r.error[i]
    ensures forall i | 0 <= i < |issues| :: issues[i].field == field
  {
    if r.Success? then [] else seq(|r.error|, i requires 0 <= i < |r.error| => Issue(field, r.error[i]))
  }

  /** What the schema demands of the submitted fields, one condition per field. */
  predicate FieldsAcceptable(raw: RawForm, isEmail: string -> bool) {
    raw.firstName.Str? && 1 <= Utf16Length(raw.firstName.s) <= 100
    && raw.email.Str? && 1 <= Utf16Length(raw.email.s) <= 255 && isEmail(raw.email.s)
    && raw.storeUrl.Str? && 1 <= Utf16Length(raw.storeUrl.s) <= 500 && StoreUrlShapeOk(raw.storeUrl.s)
    && raw.sessions30d.Num? && Admits(SessionsRule, raw.sessions30d.x)
    && raw.orders30d.Num? && Admits(OrdersRule, raw.orders30d.x)
    && raw.conversionRate.Num? && Admits(ConversionRateRule, raw.conversionRate.x)
    && raw.aov.Num? && Admits(AovRule, raw.aov.x)
    && raw.abandonedCarts30d.Num? && Admits(AbandonedCartsRule, raw.abandonedCarts30d.x)
    && (raw.monthlyRevenueRange in {Absent, Null}
        || (raw.monthlyRevenueRange.Str? && ParseRevenueRange(raw.monthlyRevenueRange.s).Some?))
  }

  /** The outcome of each field's checks. */
  datatype FieldOutcomes = FieldOutcomes(
    firstName: Result<string, seq<Message>>,
    email: Result<string, seq<Message>>,
    storeUrl: Result<string, seq<Message>>,
    sessions30d: Result<real, seq<Message>>,
    orders30d: Result<real, seq<Message>>,
    conversionRate: Result<real, seq<Message>>,
    aov: Result<real, seq<Message>>,
    abandonedCarts30d: Result<real, seq<Message>>,
    monthlyRevenueRange: Result<Option<RevenueRange>, seq<Message>>)

  function CheckFields(raw: RawForm, isEmail: string -> bool): FieldOutcomes {
    FieldOutcomes(
      ParseFirstName(raw.firstName),
      ParseEmail(raw.email, isEmail),
      ParseStoreUrl(raw.storeUrl),
      ParseNumber(SessionsRule, raw.sessions30d),
      ParseNumber(OrdersRule, raw.orders30d),
      ParseNumber(ConversionRateRule, raw.conversionRate),
      ParseNumber(AovRule, raw.aov),
      ParseNumber(AbandonedCartsRule, raw.abandonedCarts30d),
      ParseRange(raw.monthlyRevenueRange))
  }

  predicate AllSucceeded(o: FieldOutcomes) {
    o.firstName.Success? && o.email.Success? && o.storeUrl.Success?
    && o.sessions30d.Success? && o.orders30d.Success? && o.conversionRate.Success?
    && o.aov.Success? && o.abandonedCarts30d.Success? && o.monthlyRevenueRange.Success?
  }

  /** Every issue, field by field in schema order. */
  function AllIssues(o: FieldOutcomes): seq<Issue> {
    IssuesOf(FirstName, o.firstName) + IssuesOf(Email, o.email) + IssuesOf(StoreUrl, o.storeUrl)
    + IssuesOf(Sessions30d, o.sessions30d) + IssuesOf(Orders30d, o.orders30d)
    + IssuesOf(ConversionRate, o.conversionRate) + IssuesOf(Aov, o.aov)
    + IssuesOf(AbandonedCarts30d, o.abandonedCarts30d)
    + IssuesOf(MonthlyRevenueRange, o.monthlyRevenueRange)
  }

  /** The form built from the outcomes, or every issue when a field failed. */
  function Assemble(o: FieldOutcomes): (r: Result<FormData, seq<Issue>>)
    ensures r.Success? <==> AllSucceeded(o)
  {
    if AllSucceeded(o) then
      Success(FormData(o.firstName.value, o.email.value, o.storeUrl.value,
        o.sessions30d.value.Floor, o.orders30d.value.Floor, o.conversionRate.value, o.aov.value,
        o.abandonedCarts30d.value.Floor, o.monthlyRevenueRange.value))
    else
      Failure(AllIssues(o))
  }

  /**
   * diagnosticFormSchema.safeParse: every field is checked and every issue
   * collected; the form is accepted only when no field has an issue.
   */
  function ParseForm(raw: RawForm, isEmail: string -> bool): (r: Result<FormData, seq<Issue>>)
    ensures r.Success? <==> AllSucceeded(CheckFields(raw, isEmail))
  {
    Assemble(CheckFields(raw, isEmail))
  }

  /** Each field's outcome succeeds exactly under that field's own conditions. */
  lemma CheckFieldsAcceptance(raw: RawForm, isEmail: string -> bool)
    ensures AllSucceeded(CheckFields(raw, isEmail)) <==> FieldsAcceptable(raw, isEmail)
  {
    var o := CheckFields(raw, isEmail);
    assert o.monthlyRevenueRange.Success? <==>
      (raw.monthlyRevenueRange in {Absent, Null}
       || (raw.monthlyRevenueRange.Str? && ParseRevenueRange(raw.monthlyRevenueRange.s).Some?));
  }

  /** The form is accepted exactly when every field meets its own conditions. */
  lemma ParseFormAcceptance(raw: RawForm, isEmail: string -> bool)
    ensures ParseForm(raw, isEmail).Success? <==> FieldsAcceptable(raw, isEmail)
  {
    CheckFieldsAcceptance(raw, isEmail);
  }

  /** Every failed outcome carries at least one message. */
  predicate FailuresExplained(o: FieldOutcomes) {
    && (o.firstName.Failure? ==> o.firstName.error != [])
    && (o.email.Failure? ==> o.email.error != [])
    && (o.storeUrl.Failure? ==> o.storeUrl.error != [])
    && (o.sessions30d.Failure? ==> o.sessions30d.error != [])
    && (o.orders30d.Failure? ==> o.orders30d.error != [])
    && (o.conversionRate.Failure? ==> o.conversionRate.error != [])
    && (o.aov.Failure? ==> o.aov.error != [])
    && (o.abandonedCarts30d.Failure? ==> o.abandonedCarts30d.error != [])
    && (o.monthlyRevenueRange.Failure? ==> o.monthlyRevenueRange.error != [])
  }

  lemma CheckFieldsExplained(raw: RawForm, isEmail: string -> bool)
    ensures FailuresExplained(CheckFields(raw, isEmail))
  {
  }

  lemma AllIssuesNonEmpty(o: FieldOutcomes)
    requires !AllSucceeded(o) && FailuresExplained(o)
    ensures Assemble(o).Failure? && Assemble(o).error != []
  {
  }

  /** A rejected form always carries at least one issue. */
  lemma ParseFormReportsIssues(raw: RawForm, isEmail: string -> bool)
    requires ParseForm(raw, isEmail).Failure?
    ensures ParseForm(raw, isEmail).error != []
  {
    CheckFieldsExplained(raw, isEmail);
    AllIssuesNonEmpty(CheckFields(raw, isEmail));
  }

  /** The numeric outcomes that succeeded lie within their rules' bounds. */
  predicate NumbersAdmitted(o: FieldOutcomes) {
    && (o.sessions30d.Success? ==> Admits(SessionsRule, o.sessions30d.value))
    && (o.orders30d.Success? ==> Admits(OrdersRule, o.orders30d.value))
    && (o.conversionRate.Success? ==> Admits(ConversionRateRule, o.conversionRate.value))
    && (o.aov.Success? ==> Admits(AovRule, o.aov.value))
    && (o.abandonedCarts30d.Success? ==> Admits(AbandonedCartsRule, o.abandonedCarts30d.value))
  }

  lemma CheckFieldsAdmitted(raw: RawForm, isEmail: string -> bool)
    ensures NumbersAdmitted(CheckFields(raw, isEmail))
  {
  }

  /** Whole numbers survive the conversion to integers, and the bounds carry over. */
  lemma AssembleInBounds(o: FieldOutcomes)
    requires AllSucceeded(o) && NumbersAdmitted(o)
    ensures var d := Assemble(o).value;
      && MetricsInBounds(d)
      && d.sessions30d as real == o.sessions30d.value
      && d.orders30d as real == o.orders30d.value
      && d.abandonedCarts30d as real == o.abandonedCarts30d.value
  {
  }

  /** An accepted form holds the transformed strings and the submitted numbers, within bounds. */
  lemma ParseFormValues(raw: RawForm, isEmail: string -> bool)
    requires ParseForm(raw, isEmail).Success?
    ensures var d := ParseForm(raw, isEmail).value;
      && MetricsInBounds(d)
      && d.firstName == Trim(raw.firstName.s)
      && d.email == ToLower(Trim(raw.email.s))
      && d.storeUrl == NormalizeStoreUrl(raw.storeUrl.s)
      && d.sessions30d as real == raw.sessions30d.x
      && d.orders30d as real == raw.orders30d.x
      && d.conversionRate == raw.conversionRate.x
      && d.aov == raw.aov.x
      && d.abandonedCarts30d as real == raw.abandonedCarts30d.x
  {
    var o := CheckFields(raw, isEmail);
    CheckFieldsAdmitted(raw, isEmail);
    AssembleInBounds(o);
  }

  /** The name's length is checked before trimming: a name of only spaces passes and becomes empty. */
  lemma WhitespaceNameBecomesEmpty(name: string)
    requires 1 <= Utf16Length(name) <= 100
    requires forall i | 0 <= i < |name| :: IsJsWhitespace(name[i])
    ensures ParseFirstName(Str(name)) == Success("")
  {
    TrimOfWhitespace(name);
  }

  // ---------------------------------------------------------------------------
  // Client-side field validators (fieldValidators)
  // ---------------------------------------------------------------------------

  datatype ClientField = ClientSessions | ClientOrders | ClientConversionRate | ClientAov | ClientAbandonedCarts
  {
    /** The count fields, read with parseInt(value, 10). */
    predicate counts() {
      ClientSessions? || ClientOrders? || ClientAbandonedCarts?
    }
  }

  /** The count fields are read with parseInt(value, 10), the others with parseFloat. */
  function ClientParse(f: ClientField, value: string): JsNumber {
    if f.counts() then ParseInt(value) else ParseFloat(value)
  }

  /** The upper limit a client validator enforces, if any. */
  function ClientMax(f: ClientField): Option<real> {
    match f
    case ClientConversionRate => Some(20.0)
    case ClientAov => Some(5000.0)
    case _ => None
  }

  /** What a field validator reports. */
  datatype ClientMessage = InvalidNumber | NegativeNumber(field: ClientField) | NumberTooHigh(field: ClientField)
  {
    function text(): string
      requires NumberTooHigh? ==> ClientMax(field).Some?
    {
      match this
      case InvalidNumber => "Please enter a valid number"
      case NegativeNumber(ClientSessions) => "Sessions cannot be negative"
      case NegativeNumber(ClientOrders) => "Orders cannot be negative"
      case NegativeNumber(ClientConversionRate) => "Rate cannot be negative"
      case NegativeNumber(ClientAov) => "AOV cannot be negative"
      case NegativeNumber(ClientAbandonedCarts) => "Abandoned carts cannot be negative"
      case NumberTooHigh(ClientConversionRate) => "Rate seems too high (max 20%)"
      case NumberTooHigh(_) => "AOV seems too high (max $5,000)"
    }
  }

  /** JavaScript's `num < 0` on a parsed number (false for NaN). */
  predicate BelowZero(n: JsNumber) {
    (n.Finite? && n.value < 0.0) || (n.Infinite? && n.negative)
  }

  /** JavaScript's `num > max` on a parsed number (false for NaN). */
  predicate Above(n: JsNumber, max: real) {
    (n.Finite? && n.value > max) || (n.Infinite? && !n.negative)
  }

  /**
   * A field validator: null (None) when the text reads as an acceptable
   * number, otherwise the first failing check's message, checked in the
   * order not-a-number, negative, too high.
   */
  function ValidateField(f: ClientField, value: string): (r: Option<ClientMessage>)
    ensures r.None? <==>
      ClientParse(f, value).Finite? && ClientParse(f, value).value >= 0.0
      && (ClientMax(f).Some? ==> ClientParse(f, value).value <= ClientMax(f).value)
    ensures r == Some(InvalidNumber) <==> ClientParse(f, value).NaN?
    ensures r == Some(NegativeNumber(f)) <==> BelowZero(ClientParse(f, value))
    ensures r == Some(NumberTooHigh(f)) <==>
      ClientMax(f).Some? && !BelowZero(ClientParse(f, value)) && Above(ClientParse(f, value), ClientMax(f).value)
  {
    var num := ClientParse(f, value);
    if num.NaN? then Some(InvalidNumber)
    else if BelowZero(num) then Some(NegativeNumber(f))
    else if ClientMax(f).Some? && Above(num, ClientMax(f).value) then Some(NumberTooHigh(f))
    else None
  }

  /** The count validators accept every decimal numeral, whatever follows it. */
  lemma ClientAcceptsNumerals(f: ClientField, n: nat, rest: string)
    requires f.counts()
    requires rest == [] || !IsDigit(rest[0])
    ensures ValidateField(f, NatToString(n) + rest).None?
  {
    ParseIntOfNatToString(n, rest);
    assert ClientParse(f, NatToString(n) + rest) == Finite(n as real);
    assert ClientMax(f).None?;
  }

  /** The count validators reject a negative numeral as negative. */
  lemma ClientRejectsNegativeNumerals(f: ClientField, n: nat, rest: string)
    requires f.counts()
    requires n > 0 && (rest == [] || !IsDigit(rest[0]))
    ensures ValidateField(f, "-" + NatToString(n) + rest) == Some(NegativeNumber(f))
  {
    ParseIntOfNegatedNatToString(n, rest);
  }

  /** The rate and AOV validators accept a whole numeral exactly up to their limit. */
  lemma ClientBoundsWholeNumbers(f: ClientField, n: nat)
    requires !f.counts()
    ensures ValidateField(f, NatToString(n)).None? <==> n as real <= ClientMax(f).value
    ensures ValidateField(f, NatToString(n)) == Some(NumberTooHigh(f)) <==> n as real > ClientMax(f).value
  {
    ParseFloatOfNatToString(n);
  }

  /** The schema rejects more than 100,000,000 sessions. */
  lemma SchemaRejectsTooManySessions(x: real)
    requires x > 100000000.0
    ensures ParseNumber(SessionsRule, Num(x)).Failure?
  {
  }

  /** The sessions validator accepts a count the schema rejects as too high. */
  lemma ClientAcceptsTooManySessions(n: nat)
    requires n > 100000000
    ensures ValidateField(ClientSessions, NatToString(n)).None?
    ensures ParseNumber(SessionsRule, Num(n as real)).Failure?
  {
    ClientAcceptsNumerals(ClientSessions, n, []);
    assert NatToString(n) + [] == NatToString(n);
    SchemaRejectsTooManySessions(n as real);
  }

  /** The orders validator reads only the whole part, so it accepts a fraction the schema rejects. */
  lemma ClientAcceptsFractionalOrders(text: string)
    requires text == "12.5"
    ensures ValidateField(ClientOrders, text).None?
    ensures ParseNumber(OrdersRule, Num(12.5)).Failure?
  {
    var d := NatToString(12);
    assert d == "12";
    assert text == d + ".5";
    ParseIntOfNatToString(12, ".5");
    assert !IsInteger(12.5) by {
      assert (12.5).Floor == 12;
    }
  }
}
