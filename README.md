# SmishGrade URL scorer in Dafny

SmishGrade grades URLs from SMS messages by looking only at the URL itself.
`analyze_url` works as follows:

- It prefixes `http://` unless the URL already starts with `http://` or `https://`.
- It takes the result apart with `urlparse` and `tldextract`.
- It stops with `Error-Parsing` when either library raises, and with `Error-No-Hostname` when there is no hostname. Both give score 0, no heuristics and age -1.
- Otherwise it evaluates seven heuristics in order. Each one that fires adds its weight to the score and its name to the list found:
  - H1: the URL is longer than 75 characters.
  - H2: the hostname is an IP address.
  - H3: the URL contains `@`.
  - H4: a suspicious keyword occurs in the lower-cased path. It is counted once.
  - H5: the subdomain has two or more dots.
  - H6: the TLD is an abused one.
  - H7: the domain age lies in [0, 30] days. The -1 marker for an unknown age, and negative ages from creation dates in the future, never fire.
- Finally it maps the score to Benign (below 1), Suspicious (1 to 19) or Malicious (20 and above).

The domain age comes from `get_domain_age`. This is a memo table backed by WHOIS: a domain already in the table is answered from it, and any other domain is looked up once. The looked-up age is remembered, and so is a failure, stored as -1.

The project has five modules:

- `Wrappers`: `Option`.
- `Text`: the string operations the scorer uses.
  - `str.startswith`
  - substring `in`
  - ASCII `lower`
  - `count` of one character
- `Heuristics`: the configuration (weights, keyword and TLD sets, thresholds) and the heuristic identifiers. It also holds the specification of which heuristics fire (`SignalsOf`, `Triggered`), the score (`TotalWeight`) and the verdict (`VerdictOf`), with their properties.
- `DomainAges`: the `AgeCache` class. It holds the table as a `map` field, mutated by `Lookup`, and a ghost log of the domains sent to WHOIS.
- `Scorer`: the pieces of the scorer.
  - `Normalise`, the scheme step.
  - `KeywordHit`, the keyword loop.
  - `AnalyzeUrl`, the scoring method; `ScoreStructure` covers H1 to H6 and `ScoreHost` adds H7.
  - `Analysis`, the function that specifies the scoring method.
  - Worked examples.
  - A model of the code as written at line 150. See the Findings section.

The parsing libraries, the IP-address check and WHOIS are outside the model. `AnalyzeUrl` receives them as a `Libraries` value of three functions:

- The parsers, taken together, either raise (`ParseFailed`) or report hostname, path, subdomain, public suffix and registered domain.
- The IP-address check is a predicate on the hostname.
- WHOIS answers, for a domain, one of three replies:
  - a failure;
  - a record without a creation date;
  - the whole number of days since the first creation date. These days can be any integer, because a creation date in the future gives a negative count.

## Model

| member | source | states |
|---|---|---|
| Heuristics.VerdictOf | SmishGrade.py:188-192 | Never an error verdict. Malicious exactly when score >= the malicious threshold. Suspicious exactly when the score lies between the suspicious and malicious thresholds. Benign exactly when below both. |
| Heuristics.DefaultVerdictBands | SmishGrade.py:62-66 | With the shipped thresholds 20 and 1: Benign iff score 0, Suspicious iff 1..19, Malicious iff >= 20. Also states 0 → Benign, 1 and 19 → Suspicious, 20 → Malicious. |
| Heuristics.TriggeredIff | SmishGrade.py:148-186 | Each heuristic is in the found list iff its rule holds. H1: raw URL length > 75. H2: IP hostname. H3: '@' in the raw URL. H4: some keyword in the lower-cased path. H5: two or more '.' in the subdomain. H6: tld in the abused set. H7: 0 <= age <= 30. |
| Heuristics.TriggeredInOrder | SmishGrade.py:126-186 | The found list is in H1..H7 order and has no repeats. Each heuristic occurs once if its rule holds and otherwise not at all. H4 occurs once however many keywords match. |
| Heuristics.ScoreIsSumOfGains | SmishGrade.py:127-186 | The total weight of the found list is the sum, over the seven heuristics, of each weight whose rule holds. |
| Heuristics.DomainAgeContribution | SmishGrade.py:183-186 | Age -1 never records H7. An age in [0, 30] appends H7 last and adds exactly its weight. Any other age leaves list and score as with -1. |
| Heuristics.TriggeredSplit | SmishGrade.py:148-186 | The found list is H1..H6, which do not depend on the age, followed by H7. The score splits the same way. |
| Heuristics.StructuralIgnoresAge | SmishGrade.py:148-180 | H1 to H6 are the same whatever the domain age. |
| Heuristics.SingleLabelSubdomainNeverTriggers | SmishGrade.py:172-176 | A subdomain without a dot, such as "www", never fires H5. |
| Heuristics.ThreeLabelSubdomainTriggers | SmishGrade.py:172-176 | A subdomain a.b.c, as in a.b.c.example.com, always fires H5. |
| Heuristics.QuietUrlIsBenign | SmishGrade.py:148-192 | With the shipped configuration, a URL of at most 75 characters with none of H2..H7 holding has an empty list, score 0 and verdict Benign. |
| Heuristics.SelectCount | SmishGrade.py:166-170 | Selecting from a list in H1..H7 order records each heuristic at most once, and exactly once when it is listed and fires. |
| Heuristics.SelectInRankOrder | SmishGrade.py:126-186 | Selecting from a list in H1..H7 order keeps that order. |
| Text.ContainsAt | SmishGrade.py:167 | The substring test `sub in s` holds iff `sub` occurs at some index of `s`, in both directions. |
| Text.ContainsSuffix | SmishGrade.py:167 | Every string occurs in any string that ends with it. |
| Text.AsciiLower | SmishGrade.py:167 | `path.lower()` has the same length as `path`, and each character is lowered (A..Z to a..z, others unchanged). |
| Text.AsciiLowerIdempotent | SmishGrade.py:167 | Lowering twice is lowering once. |
| Text.CountChar | SmishGrade.py:174 | `subdomain.count('.')` is at most the length, and is 0 iff there is no '.'. |
| Text.CountCharAppend | SmishGrade.py:174 | Counting a character distributes over concatenation. |
| DomainAges.AgeCache.Lookup | SmishGrade.py:97-120 | On a hit it returns the stored age and changes neither the table nor the query log. On a miss it asks WHOIS once and logs the domain. It stores and returns the days since creation, or -1 on failure or a missing creation date. No domain is ever queried twice (Valid). |
| DomainAges.RememberIsStable | SmishGrade.py:97-120 | After a lookup the domain is in the table with the returned age, and the other entries are unchanged. A second lookup returns the same age whatever WHOIS would now answer, and leaves the table as it is. |
| DomainAges.LookupTwice | SmishGrade.py:97-103 | Two lookups of one domain return the same age and make at most one WHOIS query, and none when the domain was already stored. |
| DomainAges.AgeCache.Load | SmishGrade.py:72-84 | The table at start-up: the stored entries, or empty when the cache file is missing or not valid JSON. |
| DomainAges.AgeCache.Save | SmishGrade.py:86-95 | What is written back is the current table. Every domain already sent to WHOIS is in it with its stored age, so a resumed run re-queries none of them. |
| DomainAges.ResumeAfterCrash | SmishGrade.py:68-103 | Save followed by Load restores exactly the saved table. A domain resolved before the crash is then answered from it with its old age, and no WHOIS query is made. |
| Scorer.Normalise | SmishGrade.py:129-132 | The target always starts with http:// or https://. A URL that already has one is unchanged. Otherwise the target is "http://" + url, 7 characters longer. |
| Scorer.NormaliseIdempotent | SmishGrade.py:129-132 | Normalising twice is normalising once. |
| Scorer.KeywordHit | SmishGrade.py:166-170 | The keyword loop stops on a match whatever order the set is visited in. It reports a hit iff some keyword occurs in the lower-cased path. |
| Scorer.AnalyzeUrl | SmishGrade.py:122-194 | The result equals `Analysis` against the table as it was before the call. When the parse fails or has no hostname, the cache is untouched. Otherwise the table becomes `Remember(registered domain)`, and WHOIS is queried only if that domain was new. |
| Scorer.ScoreHost | SmishGrade.py:182-194 | For a URL with a hostname, the score is the total weight of `Triggered` at the age the cache returns, and the verdict is that of the score. The cache is updated as by one lookup of the registered domain. |
| Scorer.ScoreStructure | SmishGrade.py:148-180 | H1..H6 are evaluated in order. The found list is the H1..H6 selection, and the score is its total weight. H1 and H3 test the URL as given, not the normalised one. |
| Scorer.Tally | SmishGrade.py:158-160 | One heuristic step: when it fires, its identifier is appended and its weight added; otherwise nothing changes. |
| Scorer.ParseFailureShortCircuits | SmishGrade.py:134-146 | The verdict is an error iff no age lookup happens. A raising parser gives (0, Error-Parsing, [], -1). No hostname gives (0, Error-No-Hostname, [], -1). |
| Scorer.ResultIsConsistent | SmishGrade.py:126-194 | For every URL the score is the total weight of the list, and the list is in H1..H7 order. A scored URL gets the verdict of its score. H1 holds iff the raw URL is longer than 75. H3 holds iff the raw URL contains '@'. H7 holds iff the returned age is in [0, 30]. |
| Scorer.AnalysisOfHost | SmishGrade.py:134-194 | Once a hostname is reported, the result is the heuristics found, their total weight, its verdict and the cached age. |
| Scorer.IpLoginSignals | SmishGrade.py:148-186 | For http://192.168.1.1/login with an IP hostname and no recent age, only H2 and H4 hold. |
| Scorer.IpLoginSelection | SmishGrade.py:148-186 | When exactly H2 and H4 hold, the list is [H2, H4] and weighs 45. |
| Scorer.IpLoginTriggered | SmishGrade.py:148-186 | The heuristics found for http://192.168.1.1/login are [H2, H4], weighing 45. |
| Scorer.IpLoginExample | SmishGrade.py:122-194 | http://192.168.1.1/login under the shipped configuration: heuristics [H2, H4], score 45, Malicious. |
| Scorer.LongXyzExample | SmishGrade.py:148-194 | A URL longer than 75 characters under .xyz with nothing else suspicious: heuristics [H1, H6], score 25, Malicious. |
| Scorer.AsWrittenRaisesOnLongUrls | SmishGrade.py:148-150 | As written, every parsed URL longer than 75 characters raises AttributeError, where the intended result lists H1 first and counts its weight. Every other URL gets the intended result. |
| Scorer.LongUrlSignals | SmishGrade.py:148-186 | For the 83-character URL http://example.com/?id=000…, only H1 holds when the age is unknown. |
| Scorer.LongUrlTriggered | SmishGrade.py:148-186 | For that URL the list is [H1], weighing 5. |
| Scorer.LongUrlCounterexample | SmishGrade.py:148-150 | As written, the scorer raises on that URL. The intended result is (5, Suspicious, [H1], -1). |

## Left out

- The cache file I/O is not modelled (`check_cache` and `save_cache`, lines 72-95). `AgeCache.Load` starts from what the file held: missing, corrupt or a table. `AgeCache.Save` yields the table to be written. JSON encoding, file errors and printing are not modelled.
- The interactive main loop (lines 196-259) is not modelled: reading URL files and ground truth, CSV output, and the `finally` save. It is I/O around `analyze_url`. The loop's `try` at 253 catches the AttributeError of the line-150 defect, so the rest of that file's URLs are skipped.
- `time.sleep(1.5)` before each WHOIS query is not modelled. Only queries are counted (the ghost `queries` log).
- WHOIS, `datetime.now` and the choice of the first creation date when WHOIS returns a list are all folded into the `whois` parameter's reply. A `TypeError` from subtracting a naive datetime is caught at 117 like any other exception, and counts as `LookupFailed`.
- `urlparse`, `tldextract` and `ipaddress.ip_address` are parameters, not models of those libraries. The hostname lower-casing done by `urlparse` and the public-suffix list are therefore not modelled.
- Text.AsciiLower: `str.lower` is modelled for ASCII letters only. Unicode case mapping is not modelled.
- Keywords and abused TLDs are Python sets. The model leaves the keyword visiting order unspecified (`:|` choice), which is sound because the loop stops at the first match and records H4 at most once.
- A WHOIS age of exactly -1 (a creation date in the future by part of a day) is indistinguishable from the failure sentinel: both are stored as -1, and neither fires H7. The model keeps this.
- The configuration is a parameter (`Config`). The shipped values at lines 44-66 are `DEFAULT_CONFIG`. Changing these module constants at run time is not modelled.
- The code does not lower-case the TLD before the H6 test. The model tests the suffix exactly as the parser reports it.
- The comment at line 173 justifies `>= 2` by the two dots of "www.Google.com". The test itself (line 174) counts dots in the subdomain only, so "www" has none, and three labels are needed. The model follows the code.
- Printing is not modelled.

## Findings

| source | as written | input that shows it | evidently intended | confidence | as-written member | corrected member |
|---|---|---|---|---|---|---|
| SmishGrade.py:150 | `heuristic_weights.append('H1_Length')` calls `append` on the weight dictionary, which raises AttributeError for every parsed URL longer than 75 characters | http://example.com/?id= followed by 60 zeros (83 characters, parsed, path "/", WHOIS failing) | `heuristics_found.append('H1_Length')`, like H2..H7, giving (5, Suspicious, [H1_Length], -1) | high, not executed | Scorer.LongUrlCounterexample | Scorer.AnalyzeUrl |
