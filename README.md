# Amass `dns` subcommand: resolution decisions, completion and record-type settings

This project models the core of `cmd/amass/dns.go` from Amass: the logic that decides,
for each candidate subdomain name, whether it yields a DNS result, and the logic that
decides when enumeration is over.

- **`processDNSRequest`** (module `Resolution`). It scopes a name to a root domain and
  rejects it early when it is out of scope, blacklisted or under a dynamic wildcard.
  Otherwise it resolves the configured record types in order and skips failed lookups.
  It stops after a `CNAME` once answers have accumulated. It drops the name when no
  records were found or they match a wildcard. On every path exactly one value goes on
  the answer channel and the semaphore ticket is released. The resolver pool's four
  operations are arbitrary functions (`Oracles`). A `Pool` object logs every call made
  on it, so the contracts can say which lookups were issued and in what order.
  `Process` is the specification function. The method `ProcessDNSRequest` and its loop
  `ResolveTypes` are proved against it.
- **`processDNSAnswers`** (module `Quiescence`). The select loop becomes a step function
  over events: done, tick, activity pulse, answer. Its state is `first`, `active` and
  the counter `i`. The event sequence is arbitrary, so it covers every choice `select`
  can make among ready channels. `ProcessDNSAnswers` is the loop over an event sequence, proved equal
  to `Run`. The lemmas give the stopping rules: stop after `len(ProvidedNames)` answers
  (nil ones included), stop on done, stop on the second idle tick after an answer, and
  never stop on a tick before the first answer.
- **`dnsArgs.OverrideConfig`** (module `Settings`). Command-line values replace
  configured ones in a `Config` object. The record-type slice is upper-cased in place
  and the first `CNAME` is swapped to index 0. No given types means `["A"]`. The exact
  result is `RecordTypesFor`. The lemmas prove it is upper case, is a permutation of the
  upper-cased input, has `CNAME` first exactly when one was given, keeps the input order
  when there is no `CNAME`, and is idempotent.
- **`typeToName`** (module `RRTypes`). It maps the ten RR TYPE codes to their mnemonics
  and every other code to `""`. The codes come from section 3.2.2 of RFC 1035, section
  2.1 of RFC 3596 (AAAA), RFC 2782 (SRV) and section 3.1.1 of RFC 4408 (SPF). The
  reverse table `NameToType` is its partner.
- **`Pipeline`** shows the two halves working together. After normalisation, a name
  whose `CNAME` lookup answers is resolved with that single query, as when the record
  types are given as `[a, CNAME]` (`Pipeline.CnameBeforeA`).

Two behaviours of the code to note:
- The short-circuit tests the answers accumulated so far, not just the CNAME lookup's
  own answers. Because of the normalisation they coincide when `CNAME` is first.
- The completion loop's grace period lasts until the first answer arrives, not just
  the first tick.

## Model

| member | source | states |
|---|---|---|
| RRTypes.TypeToName | cmd/amass/dns.go:396-423 | the mnemonic is empty exactly for codes outside the ten known ones, and a non-empty mnemonic maps back to the same code |
| RRTypes.NameToTypeRoundTrip | cmd/amass/dns.go:396-423 | every mnemonic of the reverse table is what typeToName gives for its code: the switch's ten cases are exactly the reverse table's entries, none missing and none extra |
| RRTypes.TypeToNameInjective | cmd/amass/dns.go:396-423 | two codes with the same non-empty mnemonic are the same code, so no two cases of the switch return the same name |
| RRTypes.TypeToNameIsUpper | cmd/amass/dns.go:396-423 | every mnemonic the switch returns is upper case, so the mnemonics match the upper-cased record types the settings produce (the printing branch that upper-cases them again is not modelled) |
| Text.UpperIsUpper | cmd/amass/dns.go:372 | upper-casing yields a string of the same length with no lower-case letter, which is what the normalising loop relies on for every record type it stores |
| Text.UpperFixesUpper | cmd/amass/dns.go:372 | an upper-case string is left unchanged by upper-casing |
| Text.UpperIdempotent | cmd/amass/dns.go:372 | upper-casing twice is the same as once |
| Text.Upper | cmd/amass/dns.go:372 | definition of `strings.ToUpper` on ASCII letters; properties in UpperIsUpper, UpperFixesUpper, UpperIdempotent |
| Settings.AfterPasses | cmd/amass/dns.go:371-380 | the list after i passes of the normalising loop keeps its length; it is the loop invariant of NormalizeRecordTypes, and its properties are in RecordTypesSwapCname, RecordTypesKeepOrder, RecordTypesPermutation |
| Settings.RecordTypesFor | cmd/amass/dns.go:368-383 | definition of the record types a run queries; properties in RecordTypesUppercase, RecordTypesPermutation, RecordTypesCnameFirst, DefaultRecordType, RecordTypesIdempotent |
| Settings.FirstCnameFrom | cmd/amass/dns.go:371-380 | the index found is the first at or after i whose entry upper-cases to CNAME, or the length when none does |
| Settings.FirstCname | cmd/amass/dns.go:371-380 | the first entry that upper-cases to CNAME, or the length when none does |
| Settings.NormalizeRecordTypes | cmd/amass/dns.go:371-380 | the in-place loop leaves the array equal to the upper-cased list with its first CNAME swapped to index 0 |
| Settings.NewRecordTypes | cmd/amass/dns.go:368-383 | a fresh slice holding the normalised given types, or exactly ["A"] when none are given |
| Settings.RecordTypesUppercase | cmd/amass/dns.go:371-372 | every record type of the result is upper case |
| Settings.RecordTypesSwapCname | cmd/amass/dns.go:371-380 | with a CNAME given, the result is the upper-cased list with index 0 and the first CNAME exchanged |
| Settings.RecordTypesKeepOrder | cmd/amass/dns.go:371-380 | with no CNAME given, the result is the upper-cased input in its own order |
| Settings.RecordTypesPermutation | cmd/amass/dns.go:371-380 | the result is a permutation of the upper-cased input |
| Settings.RecordTypesCnameFirst | cmd/amass/dns.go:374-379 | index 0 is "CNAME" if and only if some given entry upper-cases to CNAME |
| Settings.DefaultRecordType | cmd/amass/dns.go:381-383 | no given record types yields exactly ["A"] |
| Settings.RecordTypesIdempotent | cmd/amass/dns.go:368-380 | normalising an already normalised list changes nothing |
| Settings.Config.Override | cmd/amass/dns.go:349-394 | each setting given on the command line replaces the configured one and the others are kept; record types become the normalised list in a fresh slice; domains are appended |
| Settings.Config.OverrideLimits | cmd/amass/dns.go:350-367 | directory, query limit and timeout are replaced only when given, and include-unresolvable is only ever switched on |
| Settings.Config.OverrideNames | cmd/amass/dns.go:356-364 | provided names and blacklist are replaced only when non-empty |
| Settings.Config.OverrideResolution | cmd/amass/dns.go:384-392 | resolvers replaced when given, rate monitoring only ever switched off, domains appended |
| Resolution.Pool.SubdomainToDomain | cmd/amass/dns.go:213 | returns the pool's domain for the name and logs the call |
| Resolution.Pool.GetWildcardType | cmd/amass/dns.go:219 | returns the pool's wildcard type for the name and domain and logs the call |
| Resolution.Pool.Resolve | cmd/amass/dns.go:226 | returns the pool's lookup for the name, type and priority and logs the call |
| Resolution.Pool.MatchesWildcard | cmd/amass/dns.go:237 | returns the pool's wildcard verdict for the request and logs the call |
| Resolution.AnswerStream.Send | cmd/amass/dns.go:209 | a send appends exactly one value to the channel |
| Resolution.Semaphore.Release | cmd/amass/dns.go:206 | releasing gives back exactly one held ticket |
| Resolution.Contribution | cmd/amass/dns.go:226-229 | definition of the answers one lookup adds; properties in FailedLookupAddsNothing, CollectedSnoc |
| Resolution.Collected | cmd/amass/dns.go:224-229 | definition of the answers accumulated over the queried types; properties in CollectedSnoc, CollectedAppend, ResolveTypes |
| Resolution.Process | cmd/amass/dns.go:204-243 | definition of processDNSRequest as a function; properties in InvalidRequestSendsNil, EarlyRejectionNeverResolves, ResolvesInConfiguredOrder, CnameShortCircuit, AllTypesQueried, SentIff, and ProcessDNSRequest is proved against it |
| Resolution.QueriedFrom | cmd/amass/dns.go:225-234 | the loop continuing at i ends one past the first later CNAME after which answers have accumulated, or at the end of the list |
| Resolution.QueriedCount | cmd/amass/dns.go:225-234 | the number of types queried is one past the first CNAME after which answers have accumulated, or all of them |
| Resolution.CollectedSnoc | cmd/amass/dns.go:226-229 | querying one more type appends that lookup's answers, or nothing when it failed |
| Resolution.CollectedAppend | cmd/amass/dns.go:224-229 | the answers over consecutive runs of types are the concatenation of each run's answers |
| Resolution.FailedLookupAddsNothing | cmd/amass/dns.go:226-229 | a lookup that returned an error contributes no answers, even if it returned some alongside the error |
| Resolution.QueriesOfResolveCalls | cmd/amass/dns.go:225-226 | the loop's Resolve calls ask for exactly the given types, in order |
| Resolution.ResolveTypes | cmd/amass/dns.go:224-235 | the loop's answers are the concatenated successful answers of the types it queried, and it issued one low-priority Resolve per queried type in order |
| Resolution.Finish | cmd/amass/dns.go:206-210 | each exit sends exactly one value and gives back exactly one ticket (the contract states both effects; the order, send before release, is the body's) |
| Resolution.ProcessDNSRequest | cmd/amass/dns.go:204-243 | exactly one value is sent on every path, the ticket is released, and the pool sees exactly the calls `Process` lists, in order |
| Resolution.InvalidRequestSendsNil | cmd/amass/dns.go:208-211 | a nil request or empty name yields nil with no pool call |
| Resolution.EarlyRejectionNeverResolves | cmd/amass/dns.go:213-222 | an out-of-scope, blacklisted or dynamically wildcarded name yields nil and no Resolve call |
| Resolution.ResolvesInConfiguredOrder | cmd/amass/dns.go:225-229 | the queried types are a prefix of the configured list in its order, each asked once for the name at low priority |
| Resolution.CnameShortCircuit | cmd/amass/dns.go:231-233 | once a CNAME lookup leaves accumulated answers, no later type is queried |
| Resolution.AllTypesQueried | cmd/amass/dns.go:225-234 | when no CNAME stop occurs every configured type is queried |
| Resolution.SentIff | cmd/amass/dns.go:235-242 | a request is sent iff the name passes the early checks, answers accumulated and they match no wildcard; it carries the domain and the answers in query order |
| Quiescence.Start | cmd/amass/dns.go:247-254 | definition of the loop entry: with no names provided the loop does not run; properties in StepKeepsReachable, AllAnsweredIffCount |
| Quiescence.Step | cmd/amass/dns.go:255-271 | definition of one pass of the select; properties in StepRules, StepKeepsReachable, NoQuiescenceBeforeAnswer |
| Quiescence.Run | cmd/amass/dns.go:253-303 | the loop keeps waiting only when every event has been consumed, and a stopped loop consumes nothing more |
| Quiescence.ProcessDNSAnswers | cmd/amass/dns.go:245-304 | the select loop consumes exactly the events and ends in exactly the status of the step function |
| Quiescence.StepKeepsReachable | cmd/amass/dns.go:247-271 | the loop only reaches states where first means no answer yet, in which active is set, and i stays below l |
| Quiescence.StepRules | cmd/amass/dns.go:255-271 | done stops; a pulse or answer sets active; a tick before any answer is ignored; after one a tick clears active, or stops when already clear |
| Quiescence.RunCountsAnswers | cmd/amass/dns.go:253-271 | i counts every answer received, nil ones included; the all-answered stop happens exactly when l answers have arrived |
| Quiescence.AllAnsweredIffCount | cmd/amass/dns.go:253-271 | from the start, the loop returns for having all answers iff l answers were consumed |
| Quiescence.EnoughAnswersEndLoop | cmd/amass/dns.go:253-271 | the loop never consumes an event past the l-th answer |
| Quiescence.DoneEndsLoop | cmd/amass/dns.go:256-257 | a closed done channel ends the loop no later than the select that sees it |
| Quiescence.NoQuiescenceBeforeAnswer | cmd/amass/dns.go:258-260 | before any answer, ticks and pulses never end the loop; only done does |
| Quiescence.TwoIdleTicksEndLoop | cmd/amass/dns.go:258-265 | after an answer, two ticks in a row end the loop at the second tick when active was set, at the first otherwise |
| Quiescence.AnswersKeepLoopActive | cmd/amass/dns.go:268-271 | answers short of l keep the loop running with active set and i advanced by their number |
| Quiescence.BurstThenSilence | cmd/amass/dns.go:258-271 | a burst of fewer than l answers followed by silence ends the loop after exactly two ticks, not one |
| Pipeline.CnameLookupSuffices | cmd/amass/dns.go:371-380 | after normalisation, a name whose CNAME lookup answers is resolved with that single query, and those answers are its records |
| Pipeline.CnameBeforeA | cmd/amass/dns.go:374-379 | record types given as [a, CNAME] become [CNAME, A], and A is never queried for a name whose CNAME lookup answers |

## Left out

- The resolver pool is not part of this model: `SubdomainToDomain`, `GetWildcardType`, `Resolve` and `MatchesWildcard` are arbitrary but fixed functions of their arguments. Caching, resolver health, retries, randomness and context cancellation are not captured. The elapsed time `Resolve` returns is dropped, as the caller ignores it.
- `config.Blacklisted` is not part of this model. It is a predicate parameter of `ProcessDNSRequest`, not derived from the configured blacklist.
- `performResolutions` is out of scope because it is concurrency and wall-clock timing. This covers the goroutines, acquiring the `SemMaxDNSQueries` ticket, the event-bus subscriptions that feed the activity channel, the buffered channels, the `time.AfterFunc` timeout and the ticker. Their effects appear only as the `Done`, `Tick`, `Pulse` and answer events given to `ProcessDNSAnswers`, and as the ticket `ProcessDNSRequest` releases. Ordering across concurrent requests is not modelled.
- Quiescence.ProcessDNSAnswers: a finite event sequence stands for the channels. When it runs out, the model reports the state in which the real loop would still be blocked in its select.
- The coloured printing branch of `processDNSAnswers` is left out because it is output formatting. This covers the type labels built with `typeToName`, the NS data split that panics on data without a comma, and `resolvers.RemoveLastDot`.
- Resolution.ProcessDNSRequest: `requests.DNSRequest` is a value here. Its in-place update through the shared pointer is not modelled. The request is referenced only by the goroutine handling it until it is sent.
- Text.Upper: only ASCII letters are upper-cased; the non-ASCII case mappings of `strings.ToUpper` are not modelled.
- Settings.DnsArgs: each string set is given as the slice its `Slice()` returns. The set's own case handling, de-duplication and iteration order are inputs, not modelled.
- Settings.Config.OverrideResolution: `config.SetResolvers` and `config.AddDomains` are not part of this model. They are taken to replace the resolver list and to append the domains, without the normalisation or de-duplication `AddDomains` may do.
- Settings.Config.constructor: `config.NewConfig` and its defaults are not part of this model.
- `OverrideConfig` always returns nil, so no error result is modelled.
- Flag definitions and parsing, `runDNSCommand`, `processDNSInputFiles`, configuration-file loading and output-directory creation are left out because they are command-line handling and file I/O.
- `services/sources/whoisxml.go` is left out entirely. It is a rate-limited HTTP and JSON client publishing names on the event bus, with no state machine of its own.
