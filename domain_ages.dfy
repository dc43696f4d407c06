/**
 The domain-age memo table: registered domain to age in days, with -1 meaning
 "unknown or the lookup failed". On a miss it asks the WHOIS service once and
 remembers the answer, failures included.
 */
module DomainAges {

  /** The age recorded when WHOIS fails or reports no creation date. */
  const UNKNOWN_AGE: int := -1

  /**
   What one WHOIS lookup yields: an error, a record without a creation date, or
   the whole number of days between now (UTC) and the first reported creation date.
   */
  datatype WhoisReply = LookupFailed | NoCreationDate | CreatedDaysAgo(days: int)

  /** The age stored for a reply. */
  function AgeOf(reply: WhoisReply): int {
    match reply
    case CreatedDaysAgo(days) => days
    case _ => UNKNOWN_AGE
  }

  /** The age a lookup of `domain` returns against the table `entries`. */
  function CachedAge(entries: map<string, int>, whois: string -> WhoisReply, domain: string): int {
    if domain in entries then entries[domain] else AgeOf(whois(domain))
  }

  /** The table after a lookup of `domain`. */
  function Remember(entries: map<string, int>, whois: string -> WhoisReply, domain: string): map<string, int> {
    if domain in entries then entries else entries[domain := AgeOf(whois(domain))]
  }

  /**
   After one lookup the domain is in the table with the age that lookup returned,
   nothing else changed, and a second lookup returns the same age whatever WHOIS
   would now answer.
   */
  lemma RememberIsStable(entries: map<string, int>, whois: string -> WhoisReply, later: string -> WhoisReply, domain: string)
    ensures domain in Remember(entries, whois, domain)
    ensures Remember(entries, whois, domain)[domain] == CachedAge(entries, whois, domain)
    ensures forall d :: d in entries ==> (d in Remember(entries, whois, domain) && Remember(entries, whois, domain)[d] == entries[d])
    ensures Remember(entries, whois, domain).Keys == entries.Keys + {domain}
    ensures CachedAge(Remember(entries, whois, domain), later, domain) == CachedAge(entries, whois, domain)
    ensures Remember(Remember(entries, whois, domain), later, domain) == Remember(entries, whois, domain)
  {
  }

  /** What the cache file held at start-up: no file, a file that is not valid JSON, or a table. */
  datatype StoredCache = Missing | Corrupt | Stored(entries: map<string, int>)

  class AgeCache {
    /** The table itself. */
    var entries: map<string, int>
    /** The domains sent to WHOIS by this object, in order. */
    ghost var queries: seq<string>

    /** No domain is ever queried twice, and every queried domain is in the table. */
    ghost predicate Valid()
      reads this
    {
      && (forall i, j :: 0 <= i < j < |queries| ==> queries[i] != queries[j])
      && (forall d :: d in queries ==> d in entries)
    }

    /** The table as loaded at start-up: empty when the file is missing or corrupt. */
    constructor Load(stored: StoredCache)
      ensures Valid()
      ensures entries == (if stored.Stored? then stored.entries else map[])
      ensures queries == []
    {
      entries := if stored.Stored? then stored.entries else map[];
      queries := [];
    }

    /**
     The table as it is written back to the cache file: every domain already sent
     to WHOIS is in it with its age, so a run resumed from it re-queries none of them.
     */
    method Save() returns (snapshot: map<string, int>)
      requires Valid()
      ensures snapshot == entries
      ensures forall d :: d in queries ==> d in snapshot && snapshot[d] == entries[d]
    {
      snapshot := entries;
    }

    /**
     The age of `domain`: the stored one on a hit, with neither the table nor the
     query log changed; on a miss, WHOIS is asked exactly once and the age it
     yields (-1 on failure or a missing creation date) is stored and returned.
     */
    method Lookup(domain: string, whois: string -> WhoisReply) returns (age: int)
      requires Valid()
      modifies this
      ensures Valid()
      ensures age == CachedAge(old(entries), whois, domain)
      ensures entries == Remember(old(entries), whois, domain)
      ensures domain in old(entries) ==> age == old(entries)[domain] && queries == old(queries)
      ensures domain !in old(entries) ==> queries == old(queries) + [domain] && age == AgeOf(whois(domain))
      ensures domain in entries && entries[domain] == age
    {
      if domain in entries {
        return entries[domain];
      }
      var reply := whois(domain);
      queries := queries + [domain];
      match reply {
        case CreatedDaysAgo(days) =>
          entries := entries[domain := days];
          age := days;
        case NoCreationDate =>
          entries := entries[domain := UNKNOWN_AGE];
          age := UNKNOWN_AGE;
        case LookupFailed =>
          entries := entries[domain := UNKNOWN_AGE];
          age := UNKNOWN_AGE;
      }
    }
  }

  /** Looking up the same domain twice gives the same age and asks WHOIS at most once. */
  method LookupTwice(cache: AgeCache, domain: string, whois: string -> WhoisReply) returns (first: int, second: int)
    requires cache.Valid()
    modifies cache
    ensures cache.Valid()
    ensures first == second
    ensures |cache.queries| <= |old(cache.queries)| + 1
    ensures domain in old(cache.entries) ==> cache.queries == old(cache.queries)
  {
    first := cache.Lookup(domain, whois);
    second := cache.Lookup(domain, whois);
  }

  /**
   Resuming after a crash: a table saved and loaded again holds exactly the
   saved entries, and a lookup of a domain resolved before the crash asks WHOIS
   nothing and returns the age it had.
   */
  method ResumeAfterCrash(before: AgeCache, domain: string, whois: string -> WhoisReply)
    returns (resumed: AgeCache, age: int)
    requires before.Valid()
    requires domain in before.entries
    ensures resumed.Valid()
    ensures resumed.entries == before.entries
    ensures resumed.queries == []
    ensures age == before.entries[domain]
  {
    var saved := before.Save();
    resumed := new AgeCache.Load(Stored(saved));
    age := resumed.Lookup(domain, whois);
  }
}
