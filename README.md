# Phishing URL feature extraction — a Dafny model

This project models the feature-extraction core of a small phishing-URL classifier.

- **Lexical extractor** (`extract_url_features`). It normalises the URL's scheme and computes ten integer features from the URL text alone. The features come in the fixed order the gradient-boosted classifier was trained on.
- **Network prober** (`SimpleNetworkFeatureExtractor`). It runs four probes: connectivity, DNS records, HTTP fetch and WHOIS. Each probe fills its own group of keys with measurements. The connectivity, HTTP and WHOIS probes overwrite their whole group with sentinel values when one of their calls raises. The DNS probe does so only when no resolver can be built. Otherwise it catches each record lookup on its own and clears only that lookup's flag. The outer method merges the four groups. If the URL cannot be split, it returns the twelve defaults instead.
- **Web handler logic** (`app.py`). This covers the six threshold rules that turn network features into explanatory indicators. It also covers how `predict` handles a blank URL and a missing model, falls back from enhanced to basic features, and picks the confidence of the predicted class.

Modules, one per source file, plus three helper modules:

- `Wrappers` (`wrappers.dfy`): `Option`, and `Attempt` (a call that returns a value or raises).
- `Text` (`text.dfy`): the Python string operations used. These are `startswith`, `count`, substring `in`, ASCII `lower`, `strip` and `split`, together with their laws.
- `Urls` (`urls.dfy`): scheme normalisation, plus the scheme and network location that the standard URL splitter reports for a URL starting with `http://` or `https://`.
- `UrlFeatures` (`feature_extractor.dfy`): pure functions and lemmas.
- `NetworkProbes` (`network_features.dfy`): a class whose methods build a feature map step by step, exactly as the source does (partial fill, then overwrite on failure). Each method is proved equal to a pure specification function, and the invariants are lemmas about those functions.
- `App` (`app.dfy`): `AnalyzeNetworkIndicators` is a method of six appends, proved equal to the specification `Indicators`. `Predict` is a pure function over the outcomes of the calls it makes.

External calls are parameters. Name resolution, the TCP connect, the resolver and its record lookups, the HTTP fetch, the WHOIS query and the clock are fields of `NetworkProbes.Environment`. Each field receives the arguments the source passes, including the 5-second timeout held in the object. The two extraction calls in `predict` and the classifier are arguments of `App.Predict`. The public-suffix splitter's `(subdomain, suffix)` is an argument of `ExtractUrlFeatures`. The lexical features are natural numbers. The network feature values are `real`, and their integer values are stored exactly.

Points where the code behaves differently from what its names or comments suggest. The model follows the code:

- `utils/feature_extractor.py:103` calls the URL splitter with no exception handler. The splitter raises `ValueError` when the network location holds one square bracket without the other, so `ExtractUrlFeatures` returns `None` exactly then.
- `utils/network_features.py:143-146` reads a list of creation dates by its first element, which need not be the earliest date (`FirstListedDateIsUsed`).
- `utils/network_features.py:111-131` sets `uses_https` only when the fetch returned, so an `https://` URL whose fetch raises gets 0 (`HttpsOnlyWhenFetched`).
- `utils/network_features.py:55` tests four text prefixes. From the 172.16.0.0/12 private block it takes only `172.16.`, so `172.20.0.1` is not flagged (`PrivateIpExamples`).
- `utils/feature_extractor.py:121` compares the public suffix with dotted strings such as `.tk`. The model states that comparison as written. It does not claim what suffix the suffix splitter reports for a host such as `example.tk`.
- `app.py:5` imports `extract_enhanced_features` and `extract_basic_features`, but `utils/feature_extractor.py` defines neither. `Predict` therefore takes the outcomes of those two calls as inputs.

## Model

| member | source | states |
|---|---|---|
| `Urls.WithScheme` | utils/feature_extractor.py:100-101 | the result starts with `http://` or `https://`; a URL that already does is unchanged; any other URL gets exactly `http://` prepended; the original URL is the result's suffix and at most seven characters are added |
| `Urls.WithSchemeIdempotent` | utils/network_features.py:20-21 | normalising twice is normalising once |
| `Urls.Scheme` | utils/feature_extractor.py:103 | the reported scheme is `https` exactly when the normalised URL begins with `https://` |
| `Urls.AuthorityStart` | utils/feature_extractor.py:103 | the network location starts right after the `//` of the scheme prefix, and the text before it is exactly `http://` or `https://` |
| `Urls.TakeUntil` | utils/feature_extractor.py:103 | the longest prefix free of the stop characters: a prefix of the input that holds none of them and is followed by one or by the end |
| `Urls.NetlocSpan` | utils/feature_extractor.py:103 | the network location is the contiguous text after `//` that holds no `/`, `?` or `#` and runs up to the first of them or to the end of the URL |
| `Urls.Netloc` | utils/feature_extractor.py:103-106 | splitting fails exactly when the network location holds one square bracket without the other; otherwise it yields that text |
| `Text.StartsWithIffSlice` | utils/feature_extractor.py:100 | `StartsWith` holds exactly when the first characters of the string, as many as the prefix has, are the prefix |
| `Text.Count` | utils/feature_extractor.py:113-115 | an occurrence count is at most the length and is 0 exactly when the character is absent |
| `Text.CountAppend` | utils/feature_extractor.py:113-115 | counts add up over concatenation |
| `Text.CountsOfDistinctCharsBound` | utils/feature_extractor.py:113-115 | the counts of three different characters sum to at most the length |
| `Text.ContainsIffOccurs` | utils/feature_extractor.py:119-120 | `Contains`, the model of `word in text`, is substring search: it holds exactly when some position starts a copy of the word |
| `Text.LowerChar` | utils/feature_extractor.py:106 | lower-casing maps `A`–`Z` to `a`–`z` and leaves every other character alone |
| `Text.Lower` | utils/feature_extractor.py:106 | lower-casing keeps the length and works character by character |
| `Text.LowerIdempotent` | utils/feature_extractor.py:120 | lower-casing twice is lower-casing once |
| `Text.LowerKeepsNonLetter` | utils/feature_extractor.py:118 | a non-letter such as `-` occurs in the lower-cased text exactly when it occurs in the original |
| `Text.IsSpaceExamples` | app.py:75 | the characters `strip` removes include the six ASCII whitespace characters, the information separators and the Unicode spaces, but not letters, NUL, the zero-width space or the byte-order mark |
| `Text.TrimStart` | app.py:75 | left stripping drops only leading whitespace and leaves a result that does not begin with whitespace |
| `Text.TrimEnd` | app.py:75 | right stripping drops only trailing whitespace and leaves a result that does not end with whitespace |
| `Text.Strip` | app.py:75 | the stripped string is a contiguous piece of the input whose dropped ends are all whitespace, and when non-empty it begins and ends with a non-space |
| `Text.StripBlankIff` | app.py:75-77 | stripping leaves nothing exactly when the input is all whitespace |
| `Text.Split` | utils/feature_extractor.py:117 | splitting gives one more piece than there are separators, and no piece holds the separator |
| `Text.JoinSplit` | utils/feature_extractor.py:117 | joining the pieces of a split with the separator gives back the original |
| `Text.JoinPrepend` | utils/feature_extractor.py:117 | prefixing the first piece prefixes the join |
| `Text.CountNonEmpty` | utils/feature_extractor.py:117 | the number of non-empty pieces is at most the number of pieces |
| `Text.SplitAllEmpty` | utils/feature_extractor.py:117 | a split has no non-empty piece exactly when the string is all separators |
| `UrlFeatures.ExtractUrlFeatures` | utils/feature_extractor.py:95-124 | extraction fails exactly when the URL splitter rejects the normalised URL |
| `UrlFeatures.UrlFeatureVector.Row` | utils/feature_extractor.py:110-122 | the frame has one column per training feature, named as in the training list, in its order |
| `UrlFeatures.FrameMatchesTraining` | model/train_model.py:23-34 | every successful extraction yields exactly the ten training columns, in order |
| `UrlFeatures.CharacterCountsWithinLength` | utils/feature_extractor.py:111-115 | `nb_dots + nb_hyphens + nb_slash <= length_url` |
| `UrlFeatures.SchemeContributesSlashes` | utils/feature_extractor.py:100-115 | `nb_slash >= 2` and `length_url >= 7`, because of the scheme prefix |
| `UrlFeatures.SchemeSlashes` | utils/feature_extractor.py:100-101 | every normalised URL has at least two slashes and seven characters |
| `UrlFeatures.HttpsTokenIffHttpsPrefix` | utils/feature_extractor.py:116 | `https_token` is 0 or 1, and 1 exactly when the normalised URL begins with `https://` |
| `UrlFeatures.HostnameWithinUrl` | utils/feature_extractor.py:106-118 | `length_hostname + 7 <= length_url` (under the ASCII-only lower-casing of `Text.Lower`); `prefix_suffix` is 0 or 1, is 1 exactly when the lower-cased network location holds `-`, and 1 implies `nb_hyphens >= 1` |
| `UrlFeatures.NetlocWithinUrl` | utils/feature_extractor.py:106-118 | the lower-cased host is at most the URL minus its scheme (under the ASCII-only lower-casing of `Text.Lower`), and a hyphen in it is a hyphen in the URL |
| `UrlFeatures.HitCount` | utils/feature_extractor.py:119-120 | no more hits than keywords |
| `UrlFeatures.Hits` | utils/feature_extractor.py:119-120 | a word is in the set exactly when it is listed and occurs in the text |
| `UrlFeatures.DistinctHead` | utils/feature_extractor.py:119-120 | the tail of a repeat-free list is repeat-free and lacks the head |
| `UrlFeatures.HitCountIsDistinctHits` | utils/feature_extractor.py:119-120 | for a repeat-free list, the hit count is the number of distinct keywords found |
| `UrlFeatures.PhishHints` | utils/feature_extractor.py:119-120 | `phish_hints` is at most the number of keywords |
| `UrlFeatures.KeywordsDistinct` | utils/feature_extractor.py:119-120 | no keyword is listed twice |
| `UrlFeatures.PhishHintsCountsDistinctKeywords` | utils/feature_extractor.py:119-120 | `phish_hints` is the size of the set of keywords occurring in the lower-cased URL (a word is in it exactly when it is a keyword found there), so it is at most 8 |
| `UrlFeatures.PhishHintsIgnoreCase` | utils/feature_extractor.py:120 | keyword hits do not depend on the case of the URL |
| `UrlFeatures.SubdomainCount` | utils/feature_extractor.py:117 | `nb_subdomains` is 0 for an empty subdomain, at most its dots plus one, and 0 exactly when it holds only dots |
| `UrlFeatures.SubdomainCountExample` | utils/feature_extractor.py:117 | subdomain `a.b` counts 2 and the empty subdomain counts 0 |
| `UrlFeatures.SuspiciousTldIffListed` | utils/feature_extractor.py:121 | `suspecious_tld` is 0 or 1, and 1 exactly when the suffix string is one of `.tk .ml .ga .cf .gq` |
| `UrlFeatures.ExtractionIgnoresNormalisation` | utils/feature_extractor.py:99-101 | a URL and its normalised form give the same features |
| `NetworkProbes.Flag` | utils/network_features.py:55-58 | a flag is 0 or 1, and 1 exactly for true |
| `NetworkProbes.IsPrivateIp` | utils/network_features.py:55 | an address is private exactly when it begins with one of the listed prefixes `10.`, `172.16.`, `192.168.`, `169.254.` |
| `NetworkProbes.BasicSentinels` | utils/network_features.py:68-73 | the connectivity probe's failure values cover exactly its three keys, and each is that key's default |
| `NetworkProbes.DnsSentinels` | utils/network_features.py:100-104 | the DNS probe's failure values cover exactly its two keys, and each is that key's default |
| `NetworkProbes.HttpSentinels` | utils/network_features.py:125-131 | the HTTP probe's failure values cover exactly its four keys, and each is that key's default |
| `NetworkProbes.WhoisSentinels` | utils/network_features.py:163-168 | the WHOIS probe's failure values cover exactly its three keys, and each is that key's default |
| `NetworkProbes.DefaultFeatures` | utils/network_features.py:172-187 | the defaults cover exactly the union of the four probes' key groups |
| `NetworkProbes.BasicProbe` | utils/network_features.py:45-75 | the connectivity probe yields exactly its three keys |
| `NetworkProbes.DnsProbe` | utils/network_features.py:77-106 | the record probe yields exactly its two keys |
| `NetworkProbes.HttpProbe` | utils/network_features.py:108-133 | the HTTP probe yields exactly its four keys |
| `NetworkProbes.CreationDateTruthiness` | utils/network_features.py:142 | a missing creation date and an empty list are false; a single date value and a non-empty list are true |
| `NetworkProbes.RegistrarTruthiness` | utils/network_features.py:161 | a missing or empty registrar is false, and any non-empty registrar is true |
| `NetworkProbes.ChosenCreationDate` | utils/network_features.py:142-146 | a list of creation dates is read by its first element; a single date is used as it is |
| `NetworkProbes.AgeDays` | utils/network_features.py:148 | the age is the whole number of days in the time difference, rounded towards minus infinity |
| `NetworkProbes.WhoisProbe` | utils/network_features.py:135-170 | the WHOIS probe yields exactly its three keys |
| `NetworkProbes.NetworkFeatures` | utils/network_features.py:14-43 | the merged result always has exactly the twelve default keys, whichever probes fail and also when splitting fails |
| `NetworkProbes.KeyGroupsPartitionDefaults` | utils/network_features.py:45-170 | the four key groups are pairwise disjoint |
| `NetworkProbes.KeyGroupSizes` | utils/network_features.py:172-187 | the groups hold 3, 2, 4 and 3 keys, and there are 12 defaults |
| `NetworkProbes.SentinelsAreDefaults` | utils/network_features.py:172-187 | the four probes' sentinel groups together are exactly the default features |
| `NetworkProbes.GroupsSurviveMerge` | utils/network_features.py:26-36 | updating with four dictionaries whose keys are the four disjoint groups keeps each dictionary's values on its own group |
| `NetworkProbes.MergeKeepsEachProbeGroup` | utils/network_features.py:18-41 | an unsplittable URL gives the defaults; otherwise each group of the result is exactly its own probe's output |
| `NetworkProbes.BasicProbeAllOrNothing` | utils/network_features.py:48-73 | if either call raises, even after the name resolved, all three values are the sentinels 5.0/0/5.0; `is_private_ip` is 0 or 1, and 1 exactly when both calls returned and the address has a private prefix |
| `NetworkProbes.PrivateIpExamples` | utils/network_features.py:55-58 | the prefix test flags `10.`, `192.168.`, `169.254.` and `172.16.` addresses and not `172.20.0.1` or `100.64.0.1` |
| `NetworkProbes.DnsFlagsIndependent` | utils/network_features.py:86-104 | `has_mx_record` and `has_txt_record` are each 0 or 1, and each is 1 exactly when a resolver exists and its own lookup succeeded |
| `NetworkProbes.HttpsOnlyWhenFetched` | utils/network_features.py:113-131 | `uses_https` is 1 exactly when the fetch returned and the URL begins with `https://`; a failed fetch gives the sentinels 5.0/0/0/0 |
| `NetworkProbes.NewDomainIffYoung` | utils/network_features.py:138-168 | on every path `is_new_domain` and `has_registrar` are 0 or 1; `is_new_domain` is 1 exactly when `domain_age_days < 30`; `has_registrar` is 1 exactly when the lookup returned a non-empty registrar and the date did not make the probe raise |
| `NetworkProbes.WhoisFailureGivesSentinels` | utils/network_features.py:139-168 | a raised lookup, or a chosen creation date that cannot be subtracted from the current time, gives exactly the three WHOIS sentinels |
| `NetworkProbes.FirstListedDateIsUsed` | utils/network_features.py:143-155 | with creation dates at day 100 and day 0 and the clock at day 110, the age is 10 days, taken from the first date and not the earliest |
| `NetworkProbes.ExtractedFlagsConsistent` | utils/network_features.py:14-43 | in the merged map the six flags (`is_private_ip`, `has_mx_record`, `has_txt_record`, `uses_https`, `is_new_domain`, `has_registrar`) are 0 or 1, and the new-domain flag agrees with the domain age |
| `NetworkProbes.MergedFlagsBinary` | utils/network_features.py:26-36 | in the merge of the four probes' outputs each flag keeps its probe's 0/1 value, and the new-domain flag agrees with the age |
| `NetworkProbes.DefaultFlagValues` | utils/network_features.py:172-187 | the defaults hold 0 for every flag except `is_new_domain`, which is 1, and 0 for the age |
| `NetworkProbes.SimpleNetworkFeatureExtractor.constructor` | utils/network_features.py:11-12 | the timeout is 5 |
| `NetworkProbes.SimpleNetworkFeatureExtractor.ExtractNetworkFeatures` | utils/network_features.py:14-43 | the four successive updates, or the defaults, give exactly `NetworkFeatures` |
| `NetworkProbes.SimpleNetworkFeatureExtractor.GetBasicNetworkFeatures` | utils/network_features.py:45-75 | the partial fill followed by the overwrite on failure gives exactly `BasicProbe` |
| `NetworkProbes.SimpleNetworkFeatureExtractor.GetDnsFeatures` | utils/network_features.py:77-106 | the two record lookups give exactly `DnsProbe` |
| `NetworkProbes.SimpleNetworkFeatureExtractor.GetHttpFeatures` | utils/network_features.py:108-133 | the fetch gives exactly `HttpProbe` |
| `NetworkProbes.SimpleNetworkFeatureExtractor.GetWhoisFeatures` | utils/network_features.py:135-170 | the WHOIS branches with their overwrite on failure give exactly `WhoisProbe` |
| `App.Lookup` | app.py:31-61 | `features.get(key, default)`: the stored value for a present key, the default for a missing one, so always the default or a value of the map |
| `App.Assess` | app.py:26-66 | each rule yields an indicator for its own check |
| `App.Indicators` | app.py:26-66 | there are exactly six indicators, one per check, in the order DNS, TCP, IP, HTTPS, domain age, MX |
| `App.IndicatorsInOrder` | app.py:26-66 | the six indicators are the six rules applied in order |
| `App.AnalyzeNetworkIndicators` | app.py:26-66 | the six appends produce exactly `Indicators` |
| `App.LatencyRules` | app.py:31-41 | DNS and TCP are "slow" exactly when their latency, 5 when missing, is above 2; exactly 2 is fast; the reported seconds are the looked-up values |
| `App.MissingKeysDefaults` | app.py:31-64 | an empty map gives slow DNS (5), slow TCP (5), public IP, no HTTPS, new domain and no MX |
| `App.DefaultsReadLikeMissingKeys` | utils/network_features.py:172-187 | the extractor's default features give the same indicators as missing keys |
| `App.EqualityTestsAreExact` | app.py:44-64 | "private" only for `is_private_ip == 1`, "no HTTPS" only for `uses_https == 0`, "new" only for `is_new_domain == 1`, "MX present" only for `has_mx_record == 1`; other values take the other branch |
| `App.IndicatorsOfBinaryFlags` | app.py:44-64 | when the flags are 0 or 1, each equality indicator is decided by its flag |
| `App.IndicatorsOfExtractedFeatures` | app.py:44-64 | on the network extractor's output each equality indicator is decided by its 0/1 flag, and "new domain" is reported exactly when the age is under 30 days |
| `App.VerdictOf` | app.py:113 | the label is phishing exactly for class 1 |
| `App.PredictedClassIndex` | app.py:112 | the probability index is 1 for class 1 and 0 otherwise |
| `App.ConfidenceOf` | app.py:112 | the confidence is the probability of the predicted class, and is absent when that index is out of range |
| `App.SelectFeatures` | app.py:96-106 | enhanced features when that call returns; otherwise basic features, or a failure if that call also raises |
| `App.Predict` | app.py:73-142 | an analysis is only produced for a non-blank stripped URL with a loaded model |
| `App.BlankUrlRejected` | app.py:75-81 | the "no URL" error is produced exactly when the form value is all whitespace |
| `App.MissingModelRejected` | app.py:86-90 | a non-blank URL without a model gets the "model not available" error |
| `App.EarlyErrorsSkipPrediction` | app.py:75-90 | for a blank URL or a missing model, the result does not depend on the extractions or the classifier, and is never an analysis |
| `App.DegradedModeReport` | app.py:102-123 | when enhanced extraction raises, the only indicator is "basic analysis only", and total features equal features used, which equal the basic frame's columns |
| `App.EnhancedModeReport` | app.py:96-119 | when enhanced extraction returns, the six indicators of its display features are reported, features used are the classifier's columns, and the total is the number of display features |
| `App.ConfidenceOfPredictedClass` | app.py:109-113 | the confidence is `probability[1]` for class 1 and `probability[0]` otherwise, taken from the classifier run on the chosen frame; the label is phishing exactly for class 1 |
| `App.AnalysisFailureCases` | app.py:92-142 | with a non-blank URL and a model, the analysis fails exactly when both extractions raise, the classifier raises, or the predicted class has no probability |

## Left out

- Flask plumbing is left out: routes, template rendering, `jsonify`, `app.run`, and loading the pickled model at import time. A missing `url` form field is also left out. `Predict` starts from the form value and a flag for whether a model was loaded.
- Only the training script's list of feature columns is modelled. Its CSV reading, training, evaluation and pickling are left out.
- Real network I/O and the clock are left out. They are the fields of `Environment`. Elapsed times are whatever those fields report. WHOIS dates are whole seconds since the epoch, so sub-second parts of a date-time are ignored.
- Closing the socket and releasing resources are left out. They do not affect the features.
- Logging `print` calls, processing time, and the `:.2f` and `:.2%` formatting are left out. Indicators are constructors carrying numbers, not formatted strings.
- Text.Lower and Text.LowerChar lower-case ASCII letters only. Python's Unicode `lower()` can change a string's length (`'İ'.lower()` has two code points), so the `length_hostname + 7 <= length_url` bound of `UrlFeatures.HostnameWithinUrl` and `UrlFeatures.NetlocWithinUrl` is proved for this ASCII model only.
- The URL splitter's NFKC check on non-ASCII network locations is not modelled.
- `Urls.Netloc` models only part of the splitter. It covers URLs that already start with `http://` or `https://`, which are the only ones the core passes it. It does not model the splitter's removal of tab, CR and LF characters. It does not check the contents of a bracketed IPv6 host beyond bracket balance.
- Exceptions not raised by a modelled call are left out. Examples are running out of memory and a `features.get` on a non-numeric value.
- The WHOIS registrar is modelled as optional text, truthy when non-empty. A registrar reported as a list is not modelled.
- Two functions are left out because `utils/feature_extractor.py` does not define them: `extract_enhanced_features` and `extract_basic_features`. The outcomes of calling them are inputs of `App.Predict`.
- The lines commented out at the top of `utils/feature_extractor.py` are left out. So is the unused `path` variable at line 107.
