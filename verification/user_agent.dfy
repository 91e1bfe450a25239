/**
 * The user-agent rules of the client collectors: operating-system extraction,
 * CPU architecture, and the browser-name and engine classifiers. Each regular
 * expression of the collectors is modelled by what it can match: a literal,
 * then a greedy capture group, found at its leftmost position.
 */
module UserAgent {
  import opened Wrappers
  import opened Text

  /** The characters `.` in a JavaScript regular expression does not match. */
  predicate IsLineTerminator(c: char)
  {
    c == '\n' || c == '\r' || c == '\U{2028}' || c == '\U{2029}'
  }

  /** The capture groups the collectors use. */
  datatype Group =
      /** `([\d.]+)` */
    | DigitsDots
      /** `([\d_]+)` */
    | DigitsUnderscores
      /** `(\d+(\.\d+)?)` */
    | Version

  predicate InRun(g: Group, c: char)
  {
    match g
    case DigitsDots => IsDigit(c) || c == '.'
    case DigitsUnderscores => IsDigit(c) || c == '_'
    case Version => IsDigit(c) || c == '.'
  }

  /** The length of the longest run of characters satisfying `keep` from index `i`. */
  function Run(s: string, i: nat, keep: char -> bool): (n: nat)
    requires i <= |s|
    decreases |s| - i
    ensures i + n <= |s|
    ensures forall k :: i <= k < i + n ==> keep(s[k])
    ensures i + n < |s| ==> !keep(s[i + n])
  {
    if i < |s| && keep(s[i]) then 1 + Run(s, i + 1, keep) else 0
  }

  /** How much of `s` from `i` the group matches greedily; 0 when it cannot match there. */
  function GroupLength(s: string, i: nat, g: Group): (n: nat)
    requires i <= |s|
    ensures i + n <= |s|
    ensures forall k :: i <= k < i + n ==> InRun(g, s[k])
  {
    match g
    case DigitsDots => Run(s, i, c => IsDigit(c) || c == '.')
    case DigitsUnderscores => Run(s, i, c => IsDigit(c) || c == '_')
    case Version =>
      var d := Run(s, i, IsDigit);
      if d > 0 && i + d < |s| && s[i + d] == '.' && Run(s, i + d + 1, IsDigit) > 0
      then d + 1 + Run(s, i + d + 1, IsDigit)
      else d
  }

  /** `lit` followed by the group matches at index `j`. */
  predicate MatchesAt(s: string, j: nat, lit: string, g: Group)
  {
    StartsAt(s, j, lit) && GroupLength(s, j + |lit|, g) > 0
  }

  /** What the group captures when the pattern matches at `j`. */
  function CaptureAt(s: string, j: nat, lit: string, g: Group): string
    requires StartsAt(s, j, lit)
  {
    s[j + |lit|..j + |lit| + GroupLength(s, j + |lit|, g)]
  }

  /** The pattern `lit(group)` matches somewhere in `s`. */
  ghost predicate Matches(s: string, lit: string, g: Group)
  {
    exists j: nat :: MatchesAt(s, j, lit, g)
  }

  /** The leftmost index at or after `from` where `lit(group)` matches (what `test` and `match` search for). */
  function FindMatch(s: string, lit: string, g: Group, from: nat): (r: Option<nat>)
    decreases |s| - from
    ensures r.None? ==> forall j: nat :: from <= j ==> !MatchesAt(s, j, lit, g)
    ensures r.Some? ==> from <= r.value && MatchesAt(s, r.value, lit, g)
                        && forall k: nat :: from <= k < r.value ==> !MatchesAt(s, k, lit, g)
  {
    if from + |lit| > |s| then None
    else if MatchesAt(s, from, lit, g) then Some(from)
    else FindMatch(s, lit, g, from + 1)
  }

  lemma FoundIffMatches(s: string, lit: string, g: Group)
    ensures FindMatch(s, lit, g, 0).Some? <==> Matches(s, lit, g)
  {
    if FindMatch(s, lit, g, 0).Some? {
      assert MatchesAt(s, FindMatch(s, lit, g, 0).value, lit, g);
    }
  }

  /** `RegExp.$1` after `lit(group)` matched: the capture at the leftmost match. */
  function Capture(s: string, lit: string, g: Group): (r: Option<string>)
    ensures r.Some? ==> |r.value| > 0 && forall k :: 0 <= k < |r.value| ==> InRun(g, r.value[k])
  {
    match FindMatch(s, lit, g, 0)
    case Some(j) => Some(CaptureAt(s, j, lit, g))
    case None => None
  }

  /** The end of the line that index `i` is on: `.*` from `i` can reach no further. */
  function LineEnd(s: string, i: nat): (e: nat)
    requires i <= |s|
    ensures i <= e <= |s|
  {
    i + Run(s, i, c => !IsLineTerminator(c))
  }

  /** `Version\/(\d+(\.\d+)?).*Safari` matches at `j`: `Safari` follows the version on the same line. */
  predicate SafariAt(s: string, j: nat)
  {
    MatchesAt(s, j, "Version/", Version)
    && var e := j + 8 + GroupLength(s, j + 8, Version);
       Contains(s[e..LineEnd(s, e)], "Safari")
  }

  /** The leftmost index at or after `from` where the Safari pattern matches. */
  function FindSafari(s: string, from: nat): (r: Option<nat>)
    decreases |s| - from
    ensures r.None? ==> forall j: nat :: from <= j ==> !SafariAt(s, j)
    ensures r.Some? ==> from <= r.value && SafariAt(s, r.value) && forall k: nat :: from <= k < r.value ==> !SafariAt(s, k)
  {
    if from + 8 > |s| then
      NoSafariPastEnd(s, from);
      None
    else if SafariAt(s, from) then Some(from)
    else FindSafari(s, from + 1)
  }

  /** `Version/` does not fit after `|s| - 8`, so nothing matches there. */
  lemma NoSafariPastEnd(s: string, from: nat)
    requires from + 8 > |s|
    ensures forall j: nat :: from <= j ==> !SafariAt(s, j)
  {
    forall j: nat | from <= j
      ensures !SafariAt(s, j)
    {
      assert !StartsAt(s, j, "Version/");
    }
  }

  /** `rv:` followed by a version starts at `j`. */
  predicate RvAt(s: string, j: nat)
  {
    MatchesAt(s, j, "rv:", Version)
  }

  /**
   * The last index in `[lo, hi)` where `rv:` and a version start: the greedy
   * `.*` in `Trident\/.*rv:` backtracks from the end of the line to it.
   */
  function LastRv(s: string, lo: nat, hi: nat): (r: Option<nat>)
    decreases hi
    ensures r.None? ==> forall j: nat :: lo <= j < hi ==> !RvAt(s, j)
    ensures r.Some? ==> lo <= r.value < hi && RvAt(s, r.value) && forall j: nat :: r.value < j < hi ==> !RvAt(s, j)
  {
    if hi <= lo then None
    else if RvAt(s, hi - 1) then Some(hi - 1)
    else LastRv(s, lo, hi - 1)
  }

  /** `Trident\/.*rv:(\d+(\.\d+)?)` matches at `j`. */
  predicate TridentAt(s: string, j: nat)
  {
    StartsAt(s, j, "Trident/") && LastRv(s, j + 8, LineEnd(s, j + 8)).Some?
  }

  /** The leftmost index at or after `from` where the Trident pattern matches. */
  function FindTrident(s: string, from: nat): (r: Option<nat>)
    decreases |s| - from
    ensures r.None? ==> forall j: nat :: from <= j ==> !TridentAt(s, j)
    ensures r.Some? ==> from <= r.value && TridentAt(s, r.value) && forall k: nat :: from <= k < r.value ==> !TridentAt(s, k)
  {
    if from + 8 > |s| then None
    else if TridentAt(s, from) then Some(from)
    else FindTrident(s, from + 1)
  }

  /** `RegExp.$1` after the Safari pattern matched. */
  function SafariVersion(s: string): Option<string>
  {
    match FindSafari(s, 0)
    case Some(j) => Some(CaptureAt(s, j, "Version/", Version))
    case None => None
  }

  /** `RegExp.$1` after the Trident pattern matched: the version after the last `rv:` on the line. */
  function TridentVersion(s: string): Option<string>
  {
    match FindTrident(s, 0)
    case Some(i) =>
      var j := LastRv(s, i + 8, LineEnd(s, i + 8)).value;
      Some(CaptureAt(s, j, "rv:", Version))
    case None => None
  }

  /** `.replace(/_/g, ".")`. */
  function Dotted(v: string): (r: string)
    ensures |r| == |v|
    ensures forall k :: 0 <= k < |v| ==> r[k] == (if v[k] == '_' then '.' else v[k])
  {
    seq(|v|, k requires 0 <= k < |v| => if v[k] == '_' then '.' else v[k])
  }

  /** The iOS patterns, `/iPhone OS ([\d_]+)/ || /CPU OS ([\d_]+)/`. */
  function IosVersion(ua: string): Option<string>
  {
    var iphone := Capture(ua, "iPhone OS ", DigitsUnderscores);
    if iphone.Some? then iphone else Capture(ua, "CPU OS ", DigitsUnderscores)
  }

  /** `extractOS(userAgent)`: the first of Windows, macOS, Android, iOS and Linux that matches. */
  function ExtractOS(ua: string): (os: string)
  {
    var win := Capture(ua, "Windows NT ", DigitsDots);
    var mac := Capture(ua, "Mac OS X ", DigitsUnderscores);
    var android := Capture(ua, "Android ", DigitsDots);
    var ios := IosVersion(ua);
    if win.Some? then "Windows " + win.value
    else if mac.Some? then "macOS " + Dotted(mac.value)
    else if android.Some? then "Android " + android.value
    else if ios.Some? then "iOS " + Dotted(ios.value)
    else if Contains(ua, "Linux") then "Linux"
    else "Unknown"
  }

  /** Every named result starts with another letter than `"Unknown"`, so only the fallback gives it. */
  lemma UnknownOnlyAsFallback(ua: string)
    ensures ExtractOS(ua) == "Unknown" <==>
      Capture(ua, "Windows NT ", DigitsDots).None? && Capture(ua, "Mac OS X ", DigitsUnderscores).None?
      && Capture(ua, "Android ", DigitsDots).None? && IosVersion(ua).None? && !Contains(ua, "Linux")
  {
    var os := ExtractOS(ua);
    if os == "Unknown" {
      assert os[0] == 'U';
    }
  }

  /** The fallback is `"Unknown"` exactly when no rule's pattern occurs anywhere in the user agent. */
  lemma UnknownOnlyWithoutTokens(ua: string)
    ensures ExtractOS(ua) == "Unknown" <==>
      !Matches(ua, "Windows NT ", DigitsDots) && !Matches(ua, "Mac OS X ", DigitsUnderscores)
      && !Matches(ua, "Android ", DigitsDots) && !Matches(ua, "iPhone OS ", DigitsUnderscores)
      && !Matches(ua, "CPU OS ", DigitsUnderscores) && !Contains(ua, "Linux")
  {
    UnknownOnlyAsFallback(ua);
    FoundIffMatches(ua, "Windows NT ", DigitsDots);
    FoundIffMatches(ua, "Mac OS X ", DigitsUnderscores);
    FoundIffMatches(ua, "Android ", DigitsDots);
    FoundIffMatches(ua, "iPhone OS ", DigitsUnderscores);
    FoundIffMatches(ua, "CPU OS ", DigitsUnderscores);
  }

  /**
   * A Windows token wins over every other rule, and its version is kept
   * verbatim from the leftmost match.
   */
  lemma WindowsFirst(ua: string)
    requires Matches(ua, "Windows NT ", DigitsDots)
    ensures exists j: nat :: MatchesAt(ua, j, "Windows NT ", DigitsDots)
                          && (forall k: nat :: k < j ==> !MatchesAt(ua, k, "Windows NT ", DigitsDots))
                          && ExtractOS(ua) == "Windows " + CaptureAt(ua, j, "Windows NT ", DigitsDots)
  {
    FoundIffMatches(ua, "Windows NT ", DigitsDots);
  }

  /**
   * Without Windows or macOS tokens, an Android token decides, and its version
   * is kept verbatim from the leftmost match.
   */
  lemma AndroidVersionVerbatim(ua: string)
    requires !Matches(ua, "Windows NT ", DigitsDots) && !Matches(ua, "Mac OS X ", DigitsUnderscores)
    requires Matches(ua, "Android ", DigitsDots)
    ensures exists j: nat :: MatchesAt(ua, j, "Android ", DigitsDots)
                          && (forall k: nat :: k < j ==> !MatchesAt(ua, k, "Android ", DigitsDots))
                          && ExtractOS(ua) == "Android " + CaptureAt(ua, j, "Android ", DigitsDots)
  {
    FoundIffMatches(ua, "Windows NT ", DigitsDots);
    FoundIffMatches(ua, "Mac OS X ", DigitsUnderscores);
    FoundIffMatches(ua, "Android ", DigitsDots);
  }

  /**
   * `"Linux"` is reported exactly when `Linux` occurs and none of the Windows,
   * macOS, Android and iOS patterns matches: the plain-word test comes last
   * among the named systems, so an Android user agent, which also says
   * `Linux`, is reported as Android.
   */
  lemma LinuxRule(ua: string)
    ensures ExtractOS(ua) == "Linux" <==>
      !Matches(ua, "Windows NT ", DigitsDots) && !Matches(ua, "Mac OS X ", DigitsUnderscores)
      && !Matches(ua, "Android ", DigitsDots) && !Matches(ua, "iPhone OS ", DigitsUnderscores)
      && !Matches(ua, "CPU OS ", DigitsUnderscores) && Contains(ua, "Linux")
  {
    FoundIffMatches(ua, "Windows NT ", DigitsDots);
    FoundIffMatches(ua, "Mac OS X ", DigitsUnderscores);
    FoundIffMatches(ua, "Android ", DigitsDots);
    FoundIffMatches(ua, "iPhone OS ", DigitsUnderscores);
    FoundIffMatches(ua, "CPU OS ", DigitsUnderscores);
    var os := ExtractOS(ua);
    if os == "Linux" {
      assert os[0] == 'L';
    }
  }

  /** A version made only of digits and dots. */
  predicate DottedVersion(v: string)
  {
    |v| > 0 && forall k :: 0 <= k < |v| ==> IsDigit(v[k]) || v[k] == '.'
  }

  /** Without a Windows token, a macOS token decides, and its underscores become dots. */
  lemma MacVersionDotted(ua: string)
    requires !Matches(ua, "Windows NT ", DigitsDots) && Matches(ua, "Mac OS X ", DigitsUnderscores)
    ensures exists v :: ExtractOS(ua) == "macOS " + v && DottedVersion(v)
  {
    FoundIffMatches(ua, "Windows NT ", DigitsDots);
    FoundIffMatches(ua, "Mac OS X ", DigitsUnderscores);
    var v := Capture(ua, "Mac OS X ", DigitsUnderscores).value;
    assert DottedVersion(Dotted(v));
  }

  /** With neither Windows, macOS nor Android tokens, an iOS token decides, its underscores becoming dots. */
  lemma IosVersionDotted(ua: string)
    requires !Matches(ua, "Windows NT ", DigitsDots) && !Matches(ua, "Mac OS X ", DigitsUnderscores)
    requires !Matches(ua, "Android ", DigitsDots)
    requires Matches(ua, "iPhone OS ", DigitsUnderscores) || Matches(ua, "CPU OS ", DigitsUnderscores)
    ensures exists v :: ExtractOS(ua) == "iOS " + v && DottedVersion(v)
  {
    FoundIffMatches(ua, "Windows NT ", DigitsDots);
    FoundIffMatches(ua, "Mac OS X ", DigitsUnderscores);
    FoundIffMatches(ua, "Android ", DigitsDots);
    FoundIffMatches(ua, "iPhone OS ", DigitsUnderscores);
    FoundIffMatches(ua, "CPU OS ", DigitsUnderscores);
    var v := IosVersion(ua).value;
    assert DottedVersion(Dotted(v));
  }

  /** `/arm|aarch64/i`. */
  predicate ArmToken(ua: string)
  {
    Contains(Lower(ua), "arm") || Contains(Lower(ua), "aarch64")
  }

  /** `/x86_64|win64|wow64|x64|amd64/i`. */
  predicate X64Token(ua: string)
  {
    Contains(Lower(ua), "x86_64") || Contains(Lower(ua), "win64") || Contains(Lower(ua), "wow64")
    || Contains(Lower(ua), "x64") || Contains(Lower(ua), "amd64")
  }

  /**
   * The `device_architecture` assignments: `null`, replaced by `'arm'` or else
   * by `'x86_64'` when the user agent, in any letter case, names one.
   */
  method DeviceArchitecture(ua: string) returns (arch: Option<string>)
    ensures arch == Some("arm") <==> ArmToken(ua)
    ensures arch == Some("x86_64") <==> !ArmToken(ua) && X64Token(ua)
    ensures arch.None? <==> !ArmToken(ua) && !X64Token(ua)
  {
    arch := None;
    if ArmToken(ua) {
      arch := Some("arm");
    } else if X64Token(ua) {
      arch := Some("x86_64");
    }
  }

  /** The tokens are matched without regard to letter case. */
  lemma ArchitectureIgnoresCase(ua: string, other: string)
    requires Lower(ua) == Lower(other)
    ensures ArmToken(ua) == ArmToken(other) && X64Token(ua) == X64Token(other)
  {
  }

  /** What the browser-name IIFE reports: a browser and its version, or `"Unknown"`. */
  datatype Browser = Named(family: string, version: string) | UnknownBrowser

  /** The reported string, `` `${family} ${version}` `` or `"Unknown"`. */
  function BrowserText(b: Browser): string
  {
    match b
    case Named(family, version) => family + " " + version
    case UnknownBrowser => "Unknown"
  }

  /** The browser-name IIFE: the first rule whose pattern matches, with its captured version. */
  function DetectBrowser(ua: string): Browser
  {
    var opera := Capture(ua, "OPR/", Version);
    var edge := Capture(ua, "Edg/", Version);
    var chrome := Capture(ua, "Chrome/", Version);
    var firefox := Capture(ua, "Firefox/", Version);
    var safari := SafariVersion(ua);
    var msie := Capture(ua, "MSIE ", Version);
    var trident := TridentVersion(ua);
    if opera.Some? then Named("Opera", opera.value)
    else if edge.Some? then Named("Edge", edge.value)
    else if chrome.Some? && !Contains(ua, "Edg") && !Contains(ua, "OPR") then Named("Chrome", chrome.value)
    else if firefox.Some? then Named("Firefox", firefox.value)
    else if safari.Some? then Named("Safari", safari.value)
    else if msie.Some? then Named("IE", msie.value)
    else if trident.Some? then Named("IE", trident.value)
    else UnknownBrowser
  }

  /** None of the Opera, Edge and Chrome rules applies. */
  predicate NoChromiumRule(ua: string)
  {
    Capture(ua, "OPR/", Version).None? && Capture(ua, "Edg/", Version).None?
    && (Capture(ua, "Chrome/", Version).None? || Contains(ua, "Edg") || Contains(ua, "OPR"))
  }

  /** An `OPR/` version decides before anything else. */
  lemma OperaRule(ua: string, v: string)
    ensures DetectBrowser(ua) == Named("Opera", v) <==> Capture(ua, "OPR/", Version) == Some(v)
  {
    var b := DetectBrowser(ua);
    if b.Named? && b.family == "Opera" {
      assert b.family[0] == 'O';
    }
  }

  /** An `Edg/` version decides when there is no `OPR/` version. */
  lemma EdgeRule(ua: string, v: string)
    ensures DetectBrowser(ua) == Named("Edge", v) <==>
      Capture(ua, "OPR/", Version).None? && Capture(ua, "Edg/", Version) == Some(v)
  {
    var b := DetectBrowser(ua);
    if b.Named? && b.family == "Edge" {
      assert b.family[0] == 'E';
    }
  }

  /**
   * Chrome is reported exactly when a `Chrome/` version occurs and neither
   * `Edg` nor `OPR` occurs anywhere; that guard already rules out the two
   * earlier rules, and the version is the `Chrome/` capture.
   */
  lemma ChromeRule(ua: string, v: string)
    ensures DetectBrowser(ua) == Named("Chrome", v) <==>
      Capture(ua, "Chrome/", Version) == Some(v) && !Contains(ua, "Edg") && !Contains(ua, "OPR")
  {
    if Capture(ua, "OPR/", Version).Some? {
      PrefixContained(ua, "OPR", "OPR/", Version);
    }
    if Capture(ua, "Edg/", Version).Some? {
      PrefixContained(ua, "Edg", "Edg/", Version);
    }
    var b := DetectBrowser(ua);
    if b.Named? && b.family == "Chrome" {
      assert b.family[0] == 'C';
    }
  }

  /** A `Firefox/` version decides only when no Chromium rule applied. */
  lemma FirefoxRule(ua: string, v: string)
    ensures DetectBrowser(ua) == Named("Firefox", v) <==>
      NoChromiumRule(ua) && Capture(ua, "Firefox/", Version) == Some(v)
  {
    var b := DetectBrowser(ua);
    if b.Named? && b.family == "Firefox" {
      assert b.family[0] == 'F';
    }
  }

  /**
   * Safari is reported when no earlier rule applied and a `Version/` version
   * is followed by `Safari` on the same line; the version is the one after the
   * leftmost such `Version/`.
   */
  lemma SafariRule(ua: string, v: string)
    ensures DetectBrowser(ua) == Named("Safari", v) <==>
      NoChromiumRule(ua) && Capture(ua, "Firefox/", Version).None? && SafariVersion(ua) == Some(v)
    ensures DetectBrowser(ua) == Named("Safari", v) ==>
      exists j: nat :: SafariAt(ua, j) && (forall k: nat :: k < j ==> !SafariAt(ua, k))
                    && v == CaptureAt(ua, j, "Version/", Version)
  {
    var b := DetectBrowser(ua);
    if b.Named? && b.family == "Safari" {
      assert b.family[0] == 'S';
    }
  }

  /**
   * IE is reported when no earlier rule applied, from an `MSIE ` version when
   * there is one, and only otherwise from the version after `rv:` that follows
   * `Trident/` on its line.
   */
  lemma IeRules(ua: string, v: string)
    ensures DetectBrowser(ua) == Named("IE", v) <==>
      NoChromiumRule(ua) && Capture(ua, "Firefox/", Version).None? && SafariVersion(ua).None?
      && (Capture(ua, "MSIE ", Version) == Some(v)
          || (Capture(ua, "MSIE ", Version).None? && TridentVersion(ua) == Some(v)))
  {
    var b := DetectBrowser(ua);
    if b.Named? && b.family == "IE" {
      assert b.family[0] == 'I';
    }
  }

  /** `"Unknown"` is reported exactly when no rule's pattern matches anywhere. */
  lemma UnknownBrowserIffNoRule(ua: string)
    ensures DetectBrowser(ua) == UnknownBrowser <==>
      !Matches(ua, "OPR/", Version) && !Matches(ua, "Edg/", Version)
      && (!Matches(ua, "Chrome/", Version) || Contains(ua, "Edg") || Contains(ua, "OPR"))
      && !Matches(ua, "Firefox/", Version) && (forall j: nat :: !SafariAt(ua, j))
      && !Matches(ua, "MSIE ", Version) && (forall j: nat :: !TridentAt(ua, j))
  {
    FoundIffMatches(ua, "OPR/", Version);
    FoundIffMatches(ua, "Edg/", Version);
    FoundIffMatches(ua, "Chrome/", Version);
    FoundIffMatches(ua, "Firefox/", Version);
    FoundIffMatches(ua, "MSIE ", Version);
  }

  /** The engine IIFE, as written: the WebKit rule repeats the Blink tokens as an exclusion. */
  function Engine(ua: string): string
  {
    if Contains(ua, "OPR") || Contains(ua, "Edg") || Contains(ua, "Chrome") then "Blink"
    else if Contains(ua, "Firefox") then "Gecko"
    else if Contains(ua, "Safari") && !(Contains(ua, "Chrome") || Contains(ua, "Edg") || Contains(ua, "OPR")) then "WebKit"
    else if Contains(ua, "Trident") || Contains(ua, "MSIE") then "Trident"
    else "Unknown"
  }

  /** One of `tokens` occurs in `ua`. */
  predicate AnyToken(ua: string, tokens: seq<string>)
  {
    tokens != [] && (Contains(ua, tokens[0]) || AnyToken(ua, tokens[1..]))
  }

  lemma SingleToken(ua: string, token: string)
    ensures AnyToken(ua, [token]) <==> Contains(ua, token)
  {
    assert [token][1..] == [];
  }

  /** The engine rules as a first-match table: tokens, any of which selects the engine. */
  const EngineRules: seq<(seq<string>, string)> := [
    (["OPR", "Edg", "Chrome"], "Blink"),
    (["Firefox"], "Gecko"),
    (["Safari"], "WebKit"),
    (["Trident", "MSIE"], "Trident")
  ]

  /** The engine of the first rule one of whose tokens occurs in `ua`, else `"Unknown"`. */
  function FirstRule(ua: string, rules: seq<(seq<string>, string)>): (r: string)
    ensures r == "Unknown" || exists k :: 0 <= k < |rules| && r == rules[k].1
  {
    if rules == [] then "Unknown"
    else if AnyToken(ua, rules[0].0) then rules[0].1
    else FirstRule(ua, rules[1..])
  }

  /**
   * The WebKit rule's exclusion of Chrome, Edg and OPR never decides anything:
   * the Blink rule before it has already taken those user agents, so the engine
   * is the plain first match over the token table.
   */
  lemma EngineIsFirstMatch(ua: string)
    ensures Engine(ua) == FirstRule(ua, EngineRules)
  {
    var blink := ["OPR", "Edg", "Chrome"];
    var trident := ["Trident", "MSIE"];
    assert AnyToken(ua, blink) <==> Contains(ua, "OPR") || AnyToken(ua, ["Edg", "Chrome"]);
    assert AnyToken(ua, ["Edg", "Chrome"]) <==> Contains(ua, "Edg") || AnyToken(ua, ["Chrome"]);
    assert AnyToken(ua, trident) <==> Contains(ua, "Trident") || AnyToken(ua, ["MSIE"]);
    SingleToken(ua, "Chrome");
    SingleToken(ua, "MSIE");
    SingleToken(ua, "Firefox");
    SingleToken(ua, "Safari");
    var r1 := EngineRules[1..];
    var r2 := r1[1..];
    var r3 := r2[1..];
    assert r3 == [(trident, "Trident")];
    assert FirstRule(ua, r3) == if AnyToken(ua, trident) then "Trident" else FirstRule(ua, []);
    assert FirstRule(ua, r2) == if AnyToken(ua, ["Safari"]) then "WebKit" else FirstRule(ua, r3);
    assert FirstRule(ua, r1) == if AnyToken(ua, ["Firefox"]) then "Gecko" else FirstRule(ua, r2);
    assert FirstRule(ua, EngineRules) == if AnyToken(ua, blink) then "Blink" else FirstRule(ua, r1);
  }

  /** A pattern that begins with `lit` can only match where `lit` occurs. */
  lemma PrefixContained(s: string, lit: string, pattern: string, g: Group)
    requires Capture(s, pattern, g).Some? && |lit| <= |pattern| && pattern[..|lit|] == lit
    ensures Contains(s, lit)
  {
    var j := FindMatch(s, pattern, g, 0).value;
    assert s[j..j + |lit|] == pattern[..|lit|];
    ContainsAt(s, lit, j);
  }

  /** Only the Opera, Edge and Chrome rules report those families. */
  lemma ChromiumFamilies(ua: string)
    requires DetectBrowser(ua).Named? && DetectBrowser(ua).family in {"Opera", "Edge", "Chrome"}
    ensures Capture(ua, "OPR/", Version).Some? || Capture(ua, "Edg/", Version).Some? || Capture(ua, "Chrome/", Version).Some?
  {
  }

  /** Opera, Edge and Chrome user agents are always reported with the Blink engine. */
  lemma ChromiumIsBlink(ua: string)
    requires DetectBrowser(ua).Named? && DetectBrowser(ua).family in {"Opera", "Edge", "Chrome"}
    ensures Engine(ua) == "Blink"
  {
    ChromiumFamilies(ua);
    if Capture(ua, "OPR/", Version).Some? {
      PrefixContained(ua, "OPR", "OPR/", Version);
    } else if Capture(ua, "Edg/", Version).Some? {
      PrefixContained(ua, "Edg", "Edg/", Version);
    } else {
      PrefixContained(ua, "Chrome", "Chrome/", Version);
    }
  }
}
