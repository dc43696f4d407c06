/**
 The URL scorer: normalise the scheme, take the URL apart with the parsing
 libraries, stop with an error verdict when that fails, otherwise evaluate
 H1 to H7 in order, summing the weights of those that fire, and map the score
 to a verdict. The domain age comes from the age cache.
 */
module Scorer {
  import opened Wrappers
  import opened Text
  import opened Heuristics
  import opened DomainAges

  /** The URL starts with one of the two schemes the scorer recognises (case-sensitively). */
  predicate HasWebScheme(url: string) {
    StartsWith(url, "http://") || StartsWith(url, "https://")
  }

  /** The string handed to the parsers: `http://` is prepended unless a scheme is there. */
  function Normalise(url: string): (target: string)
    ensures HasWebScheme(target)
    ensures HasWebScheme(url) ==> target == url
    ensures !HasWebScheme(url) ==> target == "http://" + url && |target| == |url| + 7
  {
    if HasWebScheme(url) then url else "http://" + url
  }

  /** Normalising twice is normalising once. */
  lemma NormaliseIdempotent(url: string)
    ensures Normalise(Normalise(url)) == Normalise(url)
  {
  }

  /** The parts of a URL the parsing libraries report. */
  datatype UrlParts = UrlParts(
    hostname: Option<string>,
    path: string,
    subdomain: string,
    suffix: string,             // the public suffix, without its leading dot
    registeredDomain: string)   // the domain directly under the public suffix

  /** What parsing yields: the parts, or an exception raised by a parser. */
  datatype ParseOutcome = ParseFailed | Parsed(parts: UrlParts)

  /**
   The foreign collaborators: the URL and public-suffix parsers together, the IP
   address recogniser, and the WHOIS service.
   */
  datatype Libraries = Libraries(
    parse: string -> ParseOutcome,
    isIpAddress: string -> bool,
    whois: string -> WhoisReply)

  /** One scoring result: score, verdict, heuristics found in order, domain age. */
  datatype ScoreResult = ScoreResult(score: nat, verdict: Verdict, heuristics: seq<Heuristic>, age: int)

  /** The parts of a parse that carries a non-empty hostname. */
  predicate HasHost(p: UrlParts) {
    p.hostname.Some? && p.hostname.value != ""
  }

  /** The facts the heuristics test for a URL whose normalised form parsed to `p`. */
  function FactsOf(libs: Libraries, url: string, p: UrlParts): UrlFacts
    requires HasHost(p)
  {
    UrlFacts(url, libs.isIpAddress(p.hostname.value), p.path, p.subdomain, "." + p.suffix)
  }

  /** The domain whose age is looked up for `url`, or None when scoring stops at the parse. */
  function AgeLookupTarget(libs: Libraries, url: string): Option<string> {
    match libs.parse(Normalise(url))
    case ParseFailed => None
    case Parsed(p) => if HasHost(p) then Some(p.registeredDomain) else None
  }

  /** The result of scoring `url` against the age table `entries`. */
  function Analysis(cfg: Config, libs: Libraries, entries: map<string, int>, url: string): ScoreResult {
    match libs.parse(Normalise(url))
    case ParseFailed => ScoreResult(0, ErrorParsing, [], UNKNOWN_AGE)
    case Parsed(p) =>
      if !HasHost(p) then ScoreResult(0, ErrorNoHostname, [], UNKNOWN_AGE)
      else
        var age := CachedAge(entries, libs.whois, p.registeredDomain);
        var found := Triggered(cfg, FactsOf(libs, url, p), age);
        var score := TotalWeight(cfg.weights, found);
        ScoreResult(score, VerdictOf(cfg, score), found, age)
  }

  /**
   H4's loop: whether some keyword occurs in the lower-cased path. The keywords
   are a set, visited in no particular order, and the loop stops at the first match.
   */
  method KeywordHit(keywords: set<string>, path: string) returns (hit: bool)
    ensures hit <==> exists k | k in keywords :: Contains(AsciiLower(path), k)
  {
    var lowered := AsciiLower(path);
    var unvisited := keywords;
    hit := false;
    while unvisited != {}
      invariant unvisited <= keywords
      invariant !hit
      invariant forall k :: k in keywords - unvisited ==> !Contains(lowered, k)
      decreases unvisited
    {
      var keyword :| keyword in unvisited;
      if Contains(lowered, keyword) {
        hit := true;
        break;
      }
      unvisited := unvisited - {keyword};
    }
  }

  /**
   Scores `url`. A parse exception gives Error-Parsing and a missing or empty
   hostname Error-No-Hostname, both with score 0, no heuristics, age -1 and no
   cache lookup. Otherwise the result is `Analysis` against the table as it was,
   and the cache has been asked for the registered domain exactly once.

   Line 150 of SmishGrade.py appends 'H1_Length' to the weight table (a dict, which
   has no append) instead of to the list of heuristics found, so every parsed URL
   longer than 75 characters raises AttributeError there. This method does what
   the surrounding code evidently intends and records H1 like the other six; the
   code as written is modelled by AnalysisAsWritten.
   */
  method AnalyzeUrl(cfg: Config, libs: Libraries, cache: AgeCache, url: string) returns (r: ScoreResult)
    requires cache.Valid()
    modifies cache
    ensures cache.Valid()
    ensures r == Analysis(cfg, libs, old(cache.entries), url)
    ensures AgeLookupTarget(libs, url).None? ==> cache.entries == old(cache.entries) && cache.queries == old(cache.queries)
    ensures AgeLookupTarget(libs, url).Some? ==>
              var domain := AgeLookupTarget(libs, url).value;
              && cache.entries == Remember(old(cache.entries), libs.whois, domain)
              && cache.queries == old(cache.queries) + (if domain in old(cache.entries) then [] else [domain])
  {
    var target := Normalise(url);
    var parsed := libs.parse(target);
    if parsed.ParseFailed? {
      return ScoreResult(0, ErrorParsing, [], UNKNOWN_AGE);
    }
    var p := parsed.parts;
    if p.hostname.None? || p.hostname.value == "" {
      return ScoreResult(0, ErrorNoHostname, [], UNKNOWN_AGE);
    }
    r := ScoreHost(cfg, libs, cache, url, p);
  }

  /**
   Scoring once the hostname is known: H1 to H6, then the age of the registered
   domain through the cache, then H7 and the verdict.
   */
  method ScoreHost(cfg: Config, libs: Libraries, cache: AgeCache, url: string, p: UrlParts)
    returns (r: ScoreResult)
    requires HasHost(p)
    requires cache.Valid()
    modifies cache
    ensures cache.Valid()
    ensures var age := CachedAge(old(cache.entries), libs.whois, p.registeredDomain);
            var found := Triggered(cfg, FactsOf(libs, url, p), age);
            r == ScoreResult(TotalWeight(cfg.weights, found), VerdictOf(cfg, TotalWeight(cfg.weights, found)), found, age)
    ensures cache.entries == Remember(old(cache.entries), libs.whois, p.registeredDomain)
    ensures cache.queries == old(cache.queries) +
              (if p.registeredDomain in old(cache.entries) then [] else [p.registeredDomain])
  {
    var score, found := ScoreStructure(cfg, libs, url, p);
    var age := cache.Lookup(p.registeredDomain, libs.whois);
    ghost var u := FactsOf(libs, url, p);
    ghost var s := SignalsOf(cfg, u, age);
    TriggeredSplit(cfg, u, UNKNOWN_AGE, age);
    score, found := Tally(cfg.weights, s, DomainAge, 0 <= age <= 30, score, found);
    r := ScoreResult(score, VerdictOf(cfg, score), found, age);
  }

  /**
   H1 to H6 for a URL whose normalised form parsed to `p` with a hostname: the
   heuristics among them that fire, in order, and the sum of their weights.
   H1 and H3 test the URL as given, not its normalised form.
   */
  method ScoreStructure(cfg: Config, libs: Libraries, url: string, p: UrlParts)
    returns (score: nat, found: seq<Heuristic>)
    requires HasHost(p)
    ensures found == Select(SignalsOf(cfg, FactsOf(libs, url, p), UNKNOWN_AGE), STRUCTURAL_HEURISTICS)
    ensures score == TotalWeight(cfg.weights, found)
    ensures Length in found <==> |url| > 75
    ensures AtSymbol in found <==> '@' in url
  {
    var w := cfg.weights;
    var hostname := p.hostname.value;
    var tld := "." + p.suffix;
    ghost var s := SignalsOf(cfg, FactsOf(libs, url, p), UNKNOWN_AGE);
    found := [];
    score := 0;

    score, found := Tally(w, s, Length, |url| > 75, score, found);
    var isIp := libs.isIpAddress(hostname);
    score, found := Tally(w, s, IpHostname, isIp, score, found);
    score, found := Tally(w, s, AtSymbol, '@' in url, score, found);
    var keywordHit := KeywordHit(cfg.keywords, p.path);
    score, found := Tally(w, s, Keywords, keywordHit, score, found);
    score, found := Tally(w, s, Subdomains, CountChar(p.subdomain, '.') >= 2, score, found);
    score, found := Tally(w, s, AbusedTld, tld in cfg.abusedTlds, score, found);

    StructuralUnfolded(w, s);
    SelectMembers(s, STRUCTURAL_HEURISTICS, Length);
    SelectMembers(s, STRUCTURAL_HEURISTICS, AtSymbol);
  }

  /**
   The step every heuristic takes: when it fires, add its weight to the score
   and append its identifier to the list found.
   */
  method Tally(w: Weights, ghost s: Signals, h: Heuristic, fires: bool, score: nat, found: seq<Heuristic>)
    returns (score': nat, found': seq<Heuristic>)
    requires fires == s.Has(h)
    ensures found' == found + Hit(s, h)
    ensures score' == score + Gain(w, s, h)
  {
    score', found' := score, found;
    if fires {
      score' := score + w.Of(h);
      found' := found + [h];
    }
  }

  // ---------------------------------------------------------------------------
  // Properties of a scoring result

  /**
   Scoring stops at the parse exactly when no age is looked up; the result is then
   the error verdict with score 0, no heuristics and age -1.
   */
  lemma ParseFailureShortCircuits(cfg: Config, libs: Libraries, entries: map<string, int>, url: string)
    ensures Analysis(cfg, libs, entries, url).verdict.IsError() <==> AgeLookupTarget(libs, url).None?
    ensures libs.parse(Normalise(url)).ParseFailed? ==>
              Analysis(cfg, libs, entries, url) == ScoreResult(0, ErrorParsing, [], UNKNOWN_AGE)
    ensures libs.parse(Normalise(url)).Parsed? && !HasHost(libs.parse(Normalise(url)).parts) ==>
              Analysis(cfg, libs, entries, url) == ScoreResult(0, ErrorNoHostname, [], UNKNOWN_AGE)
  {
  }

  /**
   For every URL: the score is the total weight of the heuristics found, they are
   listed in H1..H7 order without repetition, a scored URL gets the verdict of its
   score, and H1 and H3 test the URL as given, not the normalised one.
   */
  lemma ResultIsConsistent(cfg: Config, libs: Libraries, entries: map<string, int>, url: string)
    ensures var r := Analysis(cfg, libs, entries, url);
            && r.score == TotalWeight(cfg.weights, r.heuristics)
            && InRankOrder(r.heuristics)
            && (!r.verdict.IsError() ==> r.verdict == VerdictOf(cfg, r.score))
            && (!r.verdict.IsError() ==> (Length in r.heuristics <==> |url| > 75))
            && (!r.verdict.IsError() ==> (AtSymbol in r.heuristics <==> '@' in url))
            && (!r.verdict.IsError() ==> (DomainAge in r.heuristics <==> 0 <= r.age <= 30))
  {
    match libs.parse(Normalise(url))
    case ParseFailed =>
    case Parsed(p) =>
      if HasHost(p) {
        var age := CachedAge(entries, libs.whois, p.registeredDomain);
        TriggeredIff(cfg, FactsOf(libs, url, p), age);
        TriggeredInOrder(cfg, FactsOf(libs, url, p), age);
      }
  }

  /** The facts the parsers report for http://192.168.1.1/login. */
  const IP_LOGIN_PARTS: UrlParts := UrlParts(Some("192.168.1.1"), "/login", "", "", "")

  /** "login" is one of the shipped keywords and occurs in the path "/login". */
  lemma LoginPathHasKeyword()
    ensures KeywordInPath(DEFAULT_CONFIG.keywords, "/login")
  {
    assert AsciiLower("/login") == "/" + "login";
    ContainsSuffix("/", "login");
    assert "login" in DEFAULT_CONFIG.keywords;
  }

  /** For http://192.168.1.1/login exactly H2 and H4 hold, whatever the (unknown) age. */
  lemma IpLoginSignals(libs: Libraries, age: int)
    requires libs.isIpAddress("192.168.1.1")
    requires !(0 <= age <= 30)
    ensures SignalsOf(DEFAULT_CONFIG, FactsOf(libs, "http://192.168.1.1/login", IP_LOGIN_PARTS), age)
         == Signals(false, true, false, true, false, false, false)
  {
    LoginPathHasKeyword();
    IpLoginIsShortWithoutAt();
  }

  /** http://192.168.1.1/login is 24 characters long and has no '@'. */
  lemma IpLoginIsShortWithoutAt()
    ensures |"http://192.168.1.1/login"| == 24
    ensures '@' !in "http://192.168.1.1/login"
  {
  }

  /** Exactly H2 and H4 fire: the list is [H2, H4] and weighs 40 + 5. */
  lemma IpLoginSelection(s: Signals)
    requires s == Signals(false, true, false, true, false, false, false)
    ensures Select(s, ALL_HEURISTICS) == [IpHostname, Keywords]
    ensures TotalWeight(DEFAULT_CONFIG.weights, Select(s, ALL_HEURISTICS)) == 45
  {
    SelectAllUnfolded(s);
    ScoreIsSumOfGains(DEFAULT_CONFIG.weights, s);
    assert Hit(s, Length) == [] && Hit(s, IpHostname) == [IpHostname] && Hit(s, AtSymbol) == [];
    assert Hit(s, Keywords) == [Keywords] && Hit(s, Subdomains) == [] && Hit(s, AbusedTld) == [];
    assert Hit(s, DomainAge) == [];
  }

  /** The heuristics found for http://192.168.1.1/login and their weight. */
  lemma IpLoginTriggered(libs: Libraries, age: int)
    requires libs.isIpAddress("192.168.1.1")
    requires !(0 <= age <= 30)
    ensures Triggered(DEFAULT_CONFIG, FactsOf(libs, "http://192.168.1.1/login", IP_LOGIN_PARTS), age)
         == [IpHostname, Keywords]
    ensures TotalWeight(DEFAULT_CONFIG.weights,
              Triggered(DEFAULT_CONFIG, FactsOf(libs, "http://192.168.1.1/login", IP_LOGIN_PARTS), age)) == 45
  {
    IpLoginSignals(libs, age);
    IpLoginSelection(SignalsOf(DEFAULT_CONFIG, FactsOf(libs, "http://192.168.1.1/login", IP_LOGIN_PARTS), age));
  }

  /**
   http://192.168.1.1/login with the shipped configuration: H2 (IP hostname) and
   H4 ("login") fire and nothing else, so the score is 40 + 5 and the verdict Malicious.
   The parsers report the IP as hostname with an empty subdomain, suffix and domain.
   */
  lemma IpLoginExample(libs: Libraries, entries: map<string, int>)
    requires libs.parse("http://192.168.1.1/login") == Parsed(IP_LOGIN_PARTS)
    requires libs.isIpAddress("192.168.1.1")
    requires !(0 <= CachedAge(entries, libs.whois, "") <= 30)
    ensures Analysis(DEFAULT_CONFIG, libs, entries, "http://192.168.1.1/login").heuristics == [IpHostname, Keywords]
    ensures Analysis(DEFAULT_CONFIG, libs, entries, "http://192.168.1.1/login").score == 45
    ensures Analysis(DEFAULT_CONFIG, libs, entries, "http://192.168.1.1/login").verdict == Malicious
  {
    var url := "http://192.168.1.1/login";
    assert StartsWith(url, "http://") by {
      assert url[..7] == "http://";
    }
    AnalysisOfHost(DEFAULT_CONFIG, libs, entries, url, IP_LOGIN_PARTS);
    IpLoginTriggered(libs, CachedAge(entries, libs.whois, ""));
  }

  /** Once the parsers report a hostname, the result is the found heuristics, their weight, its verdict and the age. */
  lemma AnalysisOfHost(cfg: Config, libs: Libraries, entries: map<string, int>, url: string, p: UrlParts)
    requires libs.parse(Normalise(url)) == Parsed(p) && HasHost(p)
    ensures var age := CachedAge(entries, libs.whois, p.registeredDomain);
            var found := Triggered(cfg, FactsOf(libs, url, p), age);
            Analysis(cfg, libs, entries, url)
              == ScoreResult(TotalWeight(cfg.weights, found), VerdictOf(cfg, TotalWeight(cfg.weights, found)), found, age)
  {
  }

  /**
   A URL longer than 75 characters under a .xyz suffix with nothing else suspicious
   scores H1 + H6 = 5 + 20 with the shipped configuration.
   */
  lemma LongXyzExample(libs: Libraries, entries: map<string, int>, url: string, p: UrlParts)
    requires |url| > 75 && '@' !in url
    requires libs.parse(Normalise(url)) == Parsed(p) && HasHost(p)
    requires !libs.isIpAddress(p.hostname.value)
    requires p.suffix == "xyz"
    requires forall k :: k in DEFAULT_CONFIG.keywords ==> !Contains(AsciiLower(p.path), k)
    requires CountChar(p.subdomain, '.') < 2
    requires !(0 <= CachedAge(entries, libs.whois, p.registeredDomain) <= 30)
    ensures Analysis(DEFAULT_CONFIG, libs, entries, url).heuristics == [Length, AbusedTld]
    ensures Analysis(DEFAULT_CONFIG, libs, entries, url).score == 25
    ensures Analysis(DEFAULT_CONFIG, libs, entries, url).verdict == Malicious
  {
    var age := CachedAge(entries, libs.whois, p.registeredDomain);
    var u := FactsOf(libs, url, p);
    assert u.tld == ".xyz";
    TriggeredUnfolded(DEFAULT_CONFIG, u, age);
    ScoreIsSumOfGains(DEFAULT_CONFIG.weights, SignalsOf(DEFAULT_CONFIG, u, age));
  }

  // ---------------------------------------------------------------------------
  // The scorer as written

  /** How a call of the scorer ends: with a result, or with the AttributeError raised at H1. */
  datatype Outcome = Returned(result: ScoreResult) | RaisedAttributeError

  /**
   The scorer as SmishGrade.py is written: for a parsed URL longer than 75
   characters, line 150 calls `append` on the weight dictionary and raises
   AttributeError before H2 and before the age lookup; every other URL gets the
   intended result.
   */
  function AnalysisAsWritten(cfg: Config, libs: Libraries, entries: map<string, int>, url: string): Outcome {
    if AgeLookupTarget(libs, url).Some? && |url| > 75 then RaisedAttributeError
    else Returned(Analysis(cfg, libs, entries, url))
  }

  /**
   Every parsed URL longer than 75 characters makes the scorer as written raise,
   though the intended result records H1 first and counts its weight; shorter or
   unparsed URLs are unaffected.
   */
  lemma AsWrittenRaisesOnLongUrls(cfg: Config, libs: Libraries, entries: map<string, int>, url: string)
    ensures AgeLookupTarget(libs, url).Some? && |url| > 75 ==>
              && AnalysisAsWritten(cfg, libs, entries, url) == RaisedAttributeError
              && |Analysis(cfg, libs, entries, url).heuristics| > 0
              && Analysis(cfg, libs, entries, url).heuristics[0] == Length
              && Analysis(cfg, libs, entries, url).score >= cfg.weights.length
    ensures !(AgeLookupTarget(libs, url).Some? && |url| > 75) ==>
              AnalysisAsWritten(cfg, libs, entries, url) == Returned(Analysis(cfg, libs, entries, url))
  {
    var p := libs.parse(Normalise(url));
    if p.Parsed? && HasHost(p.parts) && |url| > 75 {
      var age := CachedAge(entries, libs.whois, p.parts.registeredDomain);
      var u := FactsOf(libs, url, p.parts);
      TriggeredUnfolded(cfg, u, age);
      ScoreIsSumOfGains(cfg.weights, SignalsOf(cfg, u, age));
    }
  }

  /** A concrete URL of 83 characters whose path is "/" (the rest is the query). */
  const LONG_URL: string := "http://example.com/?id=" + seq(60, _ => '0')

  /** Parsers, IP recogniser and WHOIS answering for LONG_URL as the real libraries would. */
  const LONG_URL_LIBRARIES: Libraries := Libraries(
    _ => Parsed(UrlParts(Some("example.com"), "/", "", "com", "example.com")),
    _ => false,
    _ => LookupFailed)

  /** The parts the parsers report for LONG_URL. */
  const LONG_URL_PARTS: UrlParts := UrlParts(Some("example.com"), "/", "", "com", "example.com")

  /** For LONG_URL only H1 holds when the age is unknown. */
  lemma LongUrlSignals()
    ensures SignalsOf(DEFAULT_CONFIG, FactsOf(LONG_URL_LIBRARIES, LONG_URL, LONG_URL_PARTS), UNKNOWN_AGE)
         == Signals(true, false, false, false, false, false, false)
  {
    var url := LONG_URL;
    assert |url| == 83;
    assert '@' !in url by {
      forall i | 0 <= i < |url| ensures url[i] != '@' {
        if i >= 23 {
          assert url[i] == '0';
        }
      }
    }
    assert !KeywordInPath(DEFAULT_CONFIG.keywords, "/") by {
      assert AsciiLower("/") == "/";
      forall k | k in DEFAULT_CONFIG.keywords ensures !Contains("/", k) {
        assert !StartsWith("/", k) && !StartsWith("", k);
      }
    }
    assert !LONG_URL_LIBRARIES.isIpAddress("example.com");
    assert ".com" !in DEFAULT_CONFIG.abusedTlds;
    assert CountChar("", '.') == 0;
    var u := FactsOf(LONG_URL_LIBRARIES, LONG_URL, LONG_URL_PARTS);
    assert u == UrlFacts(LONG_URL, false, "/", "", ".com");
    var sig := SignalsOf(DEFAULT_CONFIG, u, UNKNOWN_AGE);
    assert sig.length;
    assert !sig.ipHostname;
    assert !sig.atSymbol;
    assert !sig.keywords;
    assert !sig.subdomains;
    assert !sig.abusedTld;
    assert !sig.domainAge;
  }

  /** The heuristics found for LONG_URL: H1 alone, weighing 5. */
  lemma LongUrlTriggered()
    ensures Triggered(DEFAULT_CONFIG, FactsOf(LONG_URL_LIBRARIES, LONG_URL, LONG_URL_PARTS), UNKNOWN_AGE) == [Length]
    ensures TotalWeight(DEFAULT_CONFIG.weights,
              Triggered(DEFAULT_CONFIG, FactsOf(LONG_URL_LIBRARIES, LONG_URL, LONG_URL_PARTS), UNKNOWN_AGE)) == 5
  {
    var u := FactsOf(LONG_URL_LIBRARIES, LONG_URL, LONG_URL_PARTS);
    var sig := SignalsOf(DEFAULT_CONFIG, u, UNKNOWN_AGE);
    LongUrlSignals();
    TriggeredUnfolded(DEFAULT_CONFIG, u, UNKNOWN_AGE);
    ScoreIsSumOfGains(DEFAULT_CONFIG.weights, sig);
    assert Hit(sig, Length) == [Length] && Hit(sig, IpHostname) == [] && Hit(sig, AtSymbol) == [];
    assert Hit(sig, Keywords) == [] && Hit(sig, Subdomains) == [] && Hit(sig, AbusedTld) == [];
    assert Hit(sig, DomainAge) == [];
  }

  /**
   The input that shows the defect: the scorer as written raises on LONG_URL, where
   the intended result is score 5 (H1 only), Suspicious, age unknown.
   */
  lemma LongUrlCounterexample()
    ensures AnalysisAsWritten(DEFAULT_CONFIG, LONG_URL_LIBRARIES, map[], LONG_URL) == RaisedAttributeError
    ensures Analysis(DEFAULT_CONFIG, LONG_URL_LIBRARIES, map[], LONG_URL)
         == ScoreResult(5, Suspicious, [Length], UNKNOWN_AGE)
  {
    var url := LONG_URL;
    assert |url| == 83;
    assert url[..7] == "http://";
    LongUrlTriggered();
  }
}
