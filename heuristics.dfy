/**
 The configuration of the scorer and the meaning of its seven heuristics: which
 heuristics fire for a URL's features, the ordered list of those that fired,
 its total weight, and the verdict that a score maps to.
 */
module Heuristics {
  import opened Text

  /** The seven heuristics, H1 to H7, in the order the scorer evaluates them. */
  datatype Heuristic = Length | IpHostname | AtSymbol | Keywords | Subdomains | AbusedTld | DomainAge
  {
    /** The identifier recorded in the result (the key of the weight table). */
    function Name(): string {
      match this
      case Length => "H1_Length"
      case IpHostname => "H2_IP_Hostname"
      case AtSymbol => "H3_At_Symbol"
      case Keywords => "H4_Keywords"
      case Subdomains => "H5_Subdomains"
      case AbusedTld => "H6_Abused_TLD"
      case DomainAge => "H7_Domain_Age"
    }

    /** The position of the heuristic in evaluation order: Hn has rank n. */
    function Rank(): nat {
      match this
      case Length => 1
      case IpHostname => 2
      case AtSymbol => 3
      case Keywords => 4
      case Subdomains => 5
      case AbusedTld => 6
      case DomainAge => 7
    }
  }

  /** Every heuristic, in evaluation order. */
  const ALL_HEURISTICS: seq<Heuristic> :=
    [Length, IpHostname, AtSymbol, Keywords, Subdomains, AbusedTld, DomainAge]

  /** H1 to H6, the heuristics that do not depend on the domain age. */
  const STRUCTURAL_HEURISTICS: seq<Heuristic> :=
    [Length, IpHostname, AtSymbol, Keywords, Subdomains, AbusedTld]

  /** The weight table: one non-negative weight per heuristic. */
  datatype Weights = Weights(
    length: nat, ipHostname: nat, atSymbol: nat, keywords: nat,
    subdomains: nat, abusedTld: nat, domainAge: nat)
  {
    function Of(h: Heuristic): nat {
      match h
      case Length => length
      case IpHostname => ipHostname
      case AtSymbol => atSymbol
      case Keywords => keywords
      case Subdomains => subdomains
      case AbusedTld => abusedTld
      case DomainAge => domainAge
    }
  }

  /** Everything the scorer is configured with; fixed for a scoring run. */
  datatype Config = Config(
    weights: Weights,
    abusedTlds: set<string>,
    keywords: set<string>,
    maliciousThreshold: int,
    suspiciousThreshold: int)

  /** The configuration the program ships with. */
  const DEFAULT_CONFIG: Config := Config(
    Weights(5, 40, 10, 5, 15, 20, 50),
    {".xyz", ".top", ".link", ".club", ".online", ".live"},
    {"login", "verify", "secure", "account", "update", "bank"},
    20,
    1)

  /** The features of one successfully parsed URL that the heuristics test. */
  datatype UrlFacts = UrlFacts(
    raw: string,       // the URL as given, before a scheme is prepended
    hostIsIp: bool,    // the hostname is a literal IPv4 or IPv6 address
    path: string,
    subdomain: string,
    tld: string)       // "." followed by the public suffix

  /** Some suspicious keyword occurs in the lower-cased path. */
  predicate KeywordInPath(keywords: set<string>, path: string) {
    exists k | k in keywords :: Contains(AsciiLower(path), k)
  }

  /** Which of the seven heuristics fire, one flag per heuristic. */
  datatype Signals = Signals(
    length: bool, ipHostname: bool, atSymbol: bool, keywords: bool,
    subdomains: bool, abusedTld: bool, domainAge: bool)
  {
    predicate Has(h: Heuristic) {
      match h
      case Length => length
      case IpHostname => ipHostname
      case AtSymbol => atSymbol
      case Keywords => keywords
      case Subdomains => subdomains
      case AbusedTld => abusedTld
      case DomainAge => domainAge
    }
  }

  /** The rule of each heuristic, applied to the URL's facts and its domain age. */
  function SignalsOf(cfg: Config, u: UrlFacts, age: int): Signals {
    Signals(
      |u.raw| > 75,
      u.hostIsIp,
      '@' in u.raw,
      KeywordInPath(cfg.keywords, u.path),
      CountChar(u.subdomain, '.') >= 2,
      u.tld in cfg.abusedTlds,
      0 <= age <= 30)
  }

  /** `[h]` when `h` fires, `[]` otherwise. */
  function Hit(s: Signals, h: Heuristic): seq<Heuristic> {
    if s.Has(h) then [h] else []
  }

  /** The weight `h` contributes: its weight when it fires, 0 otherwise. */
  function Gain(w: Weights, s: Signals, h: Heuristic): nat {
    if s.Has(h) then w.Of(h) else 0
  }

  /** Those of `hs` that fire, in the order of `hs`. */
  function Select(s: Signals, hs: seq<Heuristic>): seq<Heuristic> {
    if hs == [] then [] else Select(s, hs[..|hs| - 1]) + Hit(s, hs[|hs| - 1])
  }

  /** The list of heuristics found for a URL: every heuristic that fires, in H1..H7 order. */
  function Triggered(cfg: Config, u: UrlFacts, age: int): seq<Heuristic> {
    Select(SignalsOf(cfg, u, age), ALL_HEURISTICS)
  }

  /** The sum of the weights of a list of heuristics. */
  function TotalWeight(w: Weights, hs: seq<Heuristic>): nat {
    if hs == [] then 0 else TotalWeight(w, hs[..|hs| - 1]) + w.Of(hs[|hs| - 1])
  }

  /** Strictly increasing rank: H-order, and therefore no heuristic twice. */
  predicate InRankOrder(hs: seq<Heuristic>) {
    forall i, j :: 0 <= i < j < |hs| ==> hs[i].Rank() < hs[j].Rank()
  }

  // ---------------------------------------------------------------------------
  // Verdict

  datatype Verdict = Benign | Suspicious | Malicious | ErrorNoHostname | ErrorParsing
  {
    /** The verdict as it is written to the output. */
    function Label(): string {
      match this
      case Benign => "Benign"
      case Suspicious => "Suspicious"
      case Malicious => "Malicious"
      case ErrorNoHostname => "Error-No-Hostname"
      case ErrorParsing => "Error-Parsing"
    }

    predicate IsError() {
      ErrorNoHostname? || ErrorParsing?
    }
  }

  /**
   The verdict for a score: Malicious from the malicious threshold up, otherwise
   Suspicious from the suspicious threshold up, otherwise Benign.
   */
  function VerdictOf(cfg: Config, score: int): (v: Verdict)
    ensures !v.IsError()
    ensures v == Malicious <==> score >= cfg.maliciousThreshold
    ensures v == Suspicious <==> cfg.suspiciousThreshold <= score < cfg.maliciousThreshold
    ensures v == Benign <==> score < cfg.suspiciousThreshold && score < cfg.maliciousThreshold
  {
    if score >= cfg.maliciousThreshold then Malicious
    else if score >= cfg.suspiciousThreshold then Suspicious
    else Benign
  }

  /** With the shipped thresholds: 0 is Benign, 1 to 19 Suspicious, 20 and above Malicious. */
  lemma DefaultVerdictBands(score: nat)
    ensures VerdictOf(DEFAULT_CONFIG, score) == Benign <==> score == 0
    ensures VerdictOf(DEFAULT_CONFIG, score) == Suspicious <==> 1 <= score < 20
    ensures VerdictOf(DEFAULT_CONFIG, score) == Malicious <==> score >= 20
    ensures VerdictOf(DEFAULT_CONFIG, 0) == Benign
    ensures VerdictOf(DEFAULT_CONFIG, 1) == Suspicious
    ensures VerdictOf(DEFAULT_CONFIG, 19) == Suspicious
    ensures VerdictOf(DEFAULT_CONFIG, 20) == Malicious
  {
  }

  // ---------------------------------------------------------------------------
  // Properties of the list of heuristics found

  /** Selecting from a list extended by one heuristic appends that heuristic if it fires. */
  lemma SelectSnoc(s: Signals, hs: seq<Heuristic>, h: Heuristic)
    ensures Select(s, hs + [h]) == Select(s, hs) + Hit(s, h)
  {
    assert (hs + [h])[..|hs|] == hs;
  }

  /** Adding one heuristic to a list adds its weight. */
  lemma TotalWeightSnoc(w: Weights, hs: seq<Heuristic>, h: Heuristic)
    ensures TotalWeight(w, hs + [h]) == TotalWeight(w, hs) + w.Of(h)
  {
    assert (hs + [h])[..|hs|] == hs;
  }

  /** Appending `Hit(s, h)` adds the gain of `h`. */
  lemma TotalWeightHit(w: Weights, hs: seq<Heuristic>, s: Signals, h: Heuristic)
    ensures TotalWeight(w, hs + Hit(s, h)) == TotalWeight(w, hs) + Gain(w, s, h)
  {
    if s.Has(h) {
      TotalWeightSnoc(w, hs, h);
    } else {
      assert hs + Hit(s, h) == hs;
    }
  }

  /** A heuristic is selected from `hs` exactly when it is in `hs` and fires. */
  lemma {:induction false} SelectMembers(s: Signals, hs: seq<Heuristic>, h: Heuristic)
    ensures h in Select(s, hs) <==> h in hs && s.Has(h)
  {
    if hs != [] {
      var init, last := hs[..|hs| - 1], hs[|hs| - 1];
      SelectMembers(s, init, h);
      assert hs == init + [last];
    }
  }

  /** Only the flags of the heuristics in `hs` matter to the selection from `hs`. */
  lemma {:induction false} SelectAgrees(s1: Signals, s2: Signals, hs: seq<Heuristic>)
    requires forall h :: h in hs ==> (s1.Has(h) <==> s2.Has(h))
    ensures Select(s1, hs) == Select(s2, hs)
  {
    if hs != [] {
      var init := hs[..|hs| - 1];
      assert forall h :: h in init ==> h in hs;
      SelectAgrees(s1, s2, init);
    }
  }

  /** Selecting keeps the order of the list selected from. */
  lemma {:induction false} SelectInRankOrder(s: Signals, hs: seq<Heuristic>)
    requires InRankOrder(hs)
    ensures InRankOrder(Select(s, hs))
  {
    if hs != [] {
      var init, last := hs[..|hs| - 1], hs[|hs| - 1];
      assert InRankOrder(init);
      SelectInRankOrder(s, init);
      var prefix := Select(s, init);
      if s.Has(last) {
        forall k | 0 <= k < |prefix| ensures prefix[k].Rank() < last.Rank() {
          SelectMembers(s, init, prefix[k]);
          var m :| 0 <= m < |init| && init[m] == prefix[k];
          assert hs[m] == prefix[k];
        }
        var t := prefix + [last];
        forall i, j | 0 <= i < j < |t| ensures t[i].Rank() < t[j].Rank() {
          assert t[i] == prefix[i];
          if j < |prefix| {
            assert t[j] == prefix[j];
          }
        }
        assert Select(s, hs) == t;
      } else {
        assert Select(s, hs) == prefix;
      }
    }
  }

  /** A list in rank order stays in rank order without its last element, which it does not repeat. */
  lemma RankOrderedSnoc(hs: seq<Heuristic>)
    requires hs != [] && InRankOrder(hs)
    ensures InRankOrder(hs[..|hs| - 1])
    ensures hs[|hs| - 1] !in hs[..|hs| - 1]
  {
    var init := hs[..|hs| - 1];
    forall k | 0 <= k < |init| ensures init[k] != hs[|hs| - 1] {
      assert hs[k].Rank() < hs[|hs| - 1].Rank();
    }
  }

  /** Appending the outcome of one heuristic adds one occurrence of it when it fires, and nothing else. */
  lemma CountAfterHit(found: seq<Heuristic>, s: Signals, last: Heuristic, h: Heuristic)
    ensures multiset(found + Hit(s, last))[h]
         == multiset(found)[h] + (if last == h && s.Has(h) then 1 else 0)
  {
    assert multiset(found + Hit(s, last)) == multiset(found) + multiset(Hit(s, last));
  }

  /** Selecting from a list without repetitions records each heuristic at most once. */
  lemma {:induction false} SelectCount(s: Signals, hs: seq<Heuristic>, h: Heuristic)
    requires InRankOrder(hs)
    ensures multiset(Select(s, hs))[h] == if h in hs && s.Has(h) then 1 else 0
  {
    if hs != [] {
      var init, last := hs[..|hs| - 1], hs[|hs| - 1];
      RankOrderedSnoc(hs);
      SelectCount(s, init, h);
      CountAfterHit(Select(s, init), s, last, h);
      assert hs == init + [last];
      assert h in hs <==> h in init || h == last;
    }
  }

  /** Every heuristic is one of the seven, and the seven are listed in rank order. */
  lemma AllHeuristicsListed(h: Heuristic)
    ensures h in ALL_HEURISTICS
    ensures InRankOrder(ALL_HEURISTICS)
  {
    assert ALL_HEURISTICS[h.Rank() - 1] == h;
  }

  /** Which heuristics are found: each one exactly when its rule holds. */
  lemma TriggeredIff(cfg: Config, u: UrlFacts, age: int)
    ensures Length in Triggered(cfg, u, age) <==> |u.raw| > 75
    ensures IpHostname in Triggered(cfg, u, age) <==> u.hostIsIp
    ensures AtSymbol in Triggered(cfg, u, age) <==> '@' in u.raw
    ensures Keywords in Triggered(cfg, u, age)
        <==> exists k | k in cfg.keywords :: Contains(AsciiLower(u.path), k)
    ensures Subdomains in Triggered(cfg, u, age) <==> CountChar(u.subdomain, '.') >= 2
    ensures AbusedTld in Triggered(cfg, u, age) <==> u.tld in cfg.abusedTlds
    ensures DomainAge in Triggered(cfg, u, age) <==> 0 <= age <= 30
  {
    var s := SignalsOf(cfg, u, age);
    forall h | true ensures h in Triggered(cfg, u, age) <==> s.Has(h) {
      AllHeuristicsListed(h);
      SelectMembers(s, ALL_HEURISTICS, h);
    }
  }

  /**
   The found list is in H1..H7 order, and each heuristic is in it once when its rule
   holds and not at all otherwise; in particular H4 is recorded once however many
   keywords match.
   */
  lemma TriggeredInOrder(cfg: Config, u: UrlFacts, age: int)
    ensures InRankOrder(Triggered(cfg, u, age))
    ensures forall i, j :: 0 <= i < j < |Triggered(cfg, u, age)|
              ==> Triggered(cfg, u, age)[i] != Triggered(cfg, u, age)[j]
    ensures forall h :: multiset(Triggered(cfg, u, age))[h]
              == if SignalsOf(cfg, u, age).Has(h) then 1 else 0
    ensures multiset(Triggered(cfg, u, age))[Keywords]
         == if KeywordInPath(cfg.keywords, u.path) then 1 else 0
  {
    var s := SignalsOf(cfg, u, age);
    AllHeuristicsListed(Length);
    SelectInRankOrder(s, ALL_HEURISTICS);
    forall h ensures multiset(Triggered(cfg, u, age))[h] == if s.Has(h) then 1 else 0 {
      AllHeuristicsListed(h);
      SelectCount(s, ALL_HEURISTICS, h);
    }
  }

  /** H1 to H6 found and weighed one heuristic at a time, in order. */
  lemma StructuralUnfolded(w: Weights, s: Signals)
    ensures Select(s, STRUCTURAL_HEURISTICS)
         == [] + Hit(s, Length) + Hit(s, IpHostname) + Hit(s, AtSymbol) + Hit(s, Keywords)
          + Hit(s, Subdomains) + Hit(s, AbusedTld)
    ensures TotalWeight(w, Select(s, STRUCTURAL_HEURISTICS))
         == 0 + Gain(w, s, Length) + Gain(w, s, IpHostname) + Gain(w, s, AtSymbol) + Gain(w, s, Keywords)
          + Gain(w, s, Subdomains) + Gain(w, s, AbusedTld)
  {
    var p0: seq<Heuristic> := [];
    var p1 := p0 + [Length];
    var p2 := p1 + [IpHostname];
    var p3 := p2 + [AtSymbol];
    var p4 := p3 + [Keywords];
    var p5 := p4 + [Subdomains];
    var p6 := p5 + [AbusedTld];
    assert p6 == STRUCTURAL_HEURISTICS;
    SelectSnoc(s, p0, Length);      TotalWeightHit(w, Select(s, p0), s, Length);
    SelectSnoc(s, p1, IpHostname);  TotalWeightHit(w, Select(s, p1), s, IpHostname);
    SelectSnoc(s, p2, AtSymbol);    TotalWeightHit(w, Select(s, p2), s, AtSymbol);
    SelectSnoc(s, p3, Keywords);    TotalWeightHit(w, Select(s, p3), s, Keywords);
    SelectSnoc(s, p4, Subdomains);  TotalWeightHit(w, Select(s, p4), s, Subdomains);
    SelectSnoc(s, p5, AbusedTld);   TotalWeightHit(w, Select(s, p5), s, AbusedTld);
  }

  /** The whole found list, one heuristic appended at a time. */
  lemma TriggeredUnfolded(cfg: Config, u: UrlFacts, age: int)
    ensures Triggered(cfg, u, age)
         == [] + Hit(SignalsOf(cfg, u, age), Length) + Hit(SignalsOf(cfg, u, age), IpHostname)
          + Hit(SignalsOf(cfg, u, age), AtSymbol) + Hit(SignalsOf(cfg, u, age), Keywords)
          + Hit(SignalsOf(cfg, u, age), Subdomains) + Hit(SignalsOf(cfg, u, age), AbusedTld)
          + Hit(SignalsOf(cfg, u, age), DomainAge)
  {
    SelectAllUnfolded(SignalsOf(cfg, u, age));
  }

  /** Selecting from all seven heuristics, one step per heuristic. */
  lemma SelectAllUnfolded(s: Signals)
    ensures Select(s, ALL_HEURISTICS)
         == [] + Hit(s, Length) + Hit(s, IpHostname) + Hit(s, AtSymbol) + Hit(s, Keywords)
          + Hit(s, Subdomains) + Hit(s, AbusedTld) + Hit(s, DomainAge)
  {
    StructuralUnfolded(Weights(0, 0, 0, 0, 0, 0, 0), s);
    assert ALL_HEURISTICS == STRUCTURAL_HEURISTICS + [DomainAge];
    SelectSnoc(s, STRUCTURAL_HEURISTICS, DomainAge);
  }

  /** The score is the sum, over all seven heuristics, of the weight of each one that fires. */
  lemma ScoreIsSumOfGains(w: Weights, s: Signals)
    ensures TotalWeight(w, Select(s, ALL_HEURISTICS))
         == Gain(w, s, Length) + Gain(w, s, IpHostname) + Gain(w, s, AtSymbol) + Gain(w, s, Keywords)
          + Gain(w, s, Subdomains) + Gain(w, s, AbusedTld) + Gain(w, s, DomainAge)
  {
    StructuralUnfolded(w, s);
    assert ALL_HEURISTICS == STRUCTURAL_HEURISTICS + [DomainAge];
    SelectSnoc(s, STRUCTURAL_HEURISTICS, DomainAge);
    TotalWeightHit(w, Select(s, STRUCTURAL_HEURISTICS), s, DomainAge);
  }

  /**
   An unknown age (the sentinel -1) adds nothing; an age in [0, 30] appends H7 at
   the end of the list and adds exactly its weight; any other age changes nothing.
   */
  lemma DomainAgeContribution(cfg: Config, u: UrlFacts, age: int)
    ensures DomainAge !in Triggered(cfg, u, -1)
    ensures 0 <= age <= 30 ==>
              Triggered(cfg, u, age) == Triggered(cfg, u, -1) + [DomainAge]
              && TotalWeight(cfg.weights, Triggered(cfg, u, age))
                 == TotalWeight(cfg.weights, Triggered(cfg, u, -1)) + cfg.weights.domainAge
    ensures !(0 <= age <= 30) ==> Triggered(cfg, u, age) == Triggered(cfg, u, -1)
  {
    var known, unknown := SignalsOf(cfg, u, age), SignalsOf(cfg, u, -1);
    var structural := STRUCTURAL_HEURISTICS;
    assert ALL_HEURISTICS == structural + [DomainAge];
    StructuralIgnoresAge(cfg, u, age, -1);
    SelectSnoc(known, structural, DomainAge);
    SelectSnoc(unknown, structural, DomainAge);
    assert Hit(unknown, DomainAge) == [];
    assert Select(unknown, structural) + [] == Select(unknown, structural);
    SelectMembers(unknown, ALL_HEURISTICS, DomainAge);
    TotalWeightSnoc(cfg.weights, Triggered(cfg, u, -1), DomainAge);
  }

  /**
   The heuristics found for a URL are H1 to H6, which do not depend on the age,
   followed by H7; the score splits the same way.
   */
  lemma TriggeredSplit(cfg: Config, u: UrlFacts, age0: int, age: int)
    ensures Triggered(cfg, u, age)
         == Select(SignalsOf(cfg, u, age0), STRUCTURAL_HEURISTICS) + Hit(SignalsOf(cfg, u, age), DomainAge)
    ensures TotalWeight(cfg.weights, Triggered(cfg, u, age))
         == TotalWeight(cfg.weights, Select(SignalsOf(cfg, u, age0), STRUCTURAL_HEURISTICS))
            + Gain(cfg.weights, SignalsOf(cfg, u, age), DomainAge)
  {
    var s := SignalsOf(cfg, u, age);
    StructuralIgnoresAge(cfg, u, age0, age);
    assert ALL_HEURISTICS == STRUCTURAL_HEURISTICS + [DomainAge];
    SelectSnoc(s, STRUCTURAL_HEURISTICS, DomainAge);
    TotalWeightHit(cfg.weights, Select(s, STRUCTURAL_HEURISTICS), s, DomainAge);
  }

  /** H1 to H6 are found alike whatever the domain age. */
  lemma StructuralIgnoresAge(cfg: Config, u: UrlFacts, age1: int, age2: int)
    ensures Select(SignalsOf(cfg, u, age1), STRUCTURAL_HEURISTICS)
         == Select(SignalsOf(cfg, u, age2), STRUCTURAL_HEURISTICS)
  {
    var s1, s2 := SignalsOf(cfg, u, age1), SignalsOf(cfg, u, age2);
    forall h | h in STRUCTURAL_HEURISTICS ensures s1.Has(h) <==> s2.Has(h) {
      assert h != DomainAge;
    }
    SelectAgrees(s1, s2, STRUCTURAL_HEURISTICS);
  }

  /** A subdomain with no dot (such as "www") never counts as excessive. */
  lemma SingleLabelSubdomainNeverTriggers(cfg: Config, u: UrlFacts, age: int)
    requires '.' !in u.subdomain
    ensures Subdomains !in Triggered(cfg, u, age)
  {
    TriggeredIff(cfg, u, age);
  }

  /** A subdomain of three labels (such as "a.b.c" in a.b.c.example.com) is excessive. */
  lemma ThreeLabelSubdomainTriggers(cfg: Config, u: UrlFacts, age: int, a: string, b: string, c: string)
    requires u.subdomain == a + "." + b + "." + c
    ensures Subdomains in Triggered(cfg, u, age)
  {
    CountCharAppend(a + "." + b + ".", c, '.');
    CountCharAppend(a + "." + b, ".", '.');
    CountCharAppend(a + ".", b, '.');
    CountCharAppend(a, ".", '.');
    TriggeredIff(cfg, u, age);
  }

  /**
   With the shipped configuration, a URL of at most 75 characters for which none of
   H2 to H7 holds scores 0 and is Benign.
   */
  lemma QuietUrlIsBenign(u: UrlFacts, age: int)
    requires |u.raw| <= 75 && !u.hostIsIp && '@' !in u.raw
    requires forall k :: k in DEFAULT_CONFIG.keywords ==> !Contains(AsciiLower(u.path), k)
    requires CountChar(u.subdomain, '.') < 2
    requires u.tld !in DEFAULT_CONFIG.abusedTlds
    requires !(0 <= age <= 30)
    ensures Triggered(DEFAULT_CONFIG, u, age) == []
    ensures TotalWeight(DEFAULT_CONFIG.weights, Triggered(DEFAULT_CONFIG, u, age)) == 0
    ensures VerdictOf(DEFAULT_CONFIG, TotalWeight(DEFAULT_CONFIG.weights, Triggered(DEFAULT_CONFIG, u, age))) == Benign
  {
    var t := Triggered(DEFAULT_CONFIG, u, age);
    TriggeredIff(DEFAULT_CONFIG, u, age);
    if t != [] {
      AllHeuristicsListed(t[0]);
    }
  }
}
