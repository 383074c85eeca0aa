# Min: a verified model of the query compiler, the protocols and the analytics

This Dafny project models the logic of the Min front end (a practice-management layer over a Salesforce CRM for
advisory firms) and proves properties of it over all inputs and all runs. Verify it with `dafny verify dfyconfig.toml`.

## What is modelled

1. **The schema-aware query compiler.** `SoqlLiteral` is the literal sanitizer with a reader that undoes its escapes.
   `SoqlQuery` is a small SOQL WHERE language: conditions with a meaning over records, and a parser. `OrgMapping`,
   `SchemaDiscovery` and `ManualMapping` turn organisation metadata and the user's answers into a mapping. `OrgQuery`
   prints filters, whole queries and new records from it, `OrgQueryMeaning` proves exactly when the printed text parses
   back to the intended condition, `AdapterSearch` what the doubly sanitized search asks for, `QuoteBalance` what any
   readable text must look like, and `ReadWriteAgreement`, `HybridAgreement` and `CorrectedAgreement` exactly when what is
   written satisfies what is read. `HouseholdDetection` and `FieldDetection` tell what a bundle is classified to from its
   fields, `OfferedChoices` what the user can correct it to. `MappingCache` follows the mapping through process restarts and
   cookies. `Witnesses` holds concrete inputs.
2. **Stateful protocols.** `RateLimiter` (a class, and every trace over it), `SingleFlight` (the token refresh of
   section 6 of RFC 6749, as steps between await points of callers of many sessions) with `TokenAnswers` (where every token
   comes from), `Workflows`, `WorkflowRuns` and `WorkflowTriggers` (step-level idempotency over a task store), `TaskBatch`
   (composite calls of 25 with fallback), `Retry` (the retry and paging loops), `TaskDelivery` and `WorkflowDelivery`
   (batch, retries and workflows together), `WorkflowOverlap` (turns of the workflow loop that overlap) and `ClientCalls`
   (the browser's retrying recursion with its CSRF token cache).
3. **The compliance keyword scan.** `Compliance` proves what searching one joined text means in terms of its fields,
   `ComplianceReport` which checks a report holds and how each stands.
4. **Practice analytics.** `Pipeline`, `AdvisorScoreboard`, `AumBlending` and `HomeStats`, over `PracticeTypes`: loops
   over maps and sets, refined by specifications that satisfy partitions, conservation laws and bounds. `ScoreboardFigures`
   and `HomeFigures` tell every figure from the fields of tasks and households.
5. **The audit record.** `Scrub` is the recursive scrubber, `LineMatch` the label patterns, `AuditTrail` the printer and
   the parser, `AuditSubject` and `AuditRoundTrip` their round trip.

`Text` holds the string operations of the JavaScript runtime, `StableSort` its array sort.

Loops and updates of the source are methods and classes, each proved equal to a specification function; expression-only
code is functions. Answers of the network, the CRM and the clock are parameters: a function from the number of the
request to an arbitrary answer, or a list of steps in arbitrary order. Integers are unbounded. Confidences are whole
hundredths, percentages exact quotients rounded half up. A string is a sequence of Unicode characters.

## What was found

Each of these is a property the code, its comments or its tests suggest, that fails on some input. The lemmas named give
the exact condition under which it holds, and an input on which it fails.

- The 200-character cut of the sanitizer can fall inside an escape (`SoqlLiteral.DanglesIff`,
  `SoqlLiteral.CutCanSplitAnEscape`). In the text of a search the closing wildcard then becomes a literal `%`
  (`OrgQueryMeaning.NameCondMeaning`). In a filter value the literal runs on: in a listing it never closes
  (`OrgQueryMeaning.DanglingListFails`), and in a search it closes at the quote before the wildcard, which leaves a text
  that is no query (`OrgQueryMeaning.DanglingSearchFails`). With a single filter, listing and search mean what they should
  if and only if the value is not cut there (`OrgQueryMeaning.ListParses`, `OrgQueryMeaning.SingleSearchIff`).
- The pattern filters of a hybrid organisation are pasted unescaped: the query means what it should if and only if no
  value has a quote or a backslash (`OrgQueryMeaning.HybridListIffClean`, `OrgQueryMeaning.HybridSearchIffClean`). A
  household created there is listed under the condition of `HybridAgreement.HybridAgreesIff`, or, for values with bare
  quotes, of `HybridAgreement.CleanNameListedIff`; with the Type value "O'Household" it is not
  (`Witnesses.QuoteInHybrid`, `Witnesses.QuoteHidesHousehold`).
- A custom household object normally has an empty filter, but a managed package together with both kinds of account
  evidence prints the account filter against the package's object (`ReadWriteAgreement.OwnObjectFilterIsEmptyIff`,
  `Witnesses.AccountFilterOnOwnObject`).
- The two household detectors disagree when a managed package was found but not described
  (`SchemaDiscovery.AgreesIff`, `Witnesses.DetectorsDisagree`).
- In a hybrid organisation the user's manual correction of the household filter is ignored
  (`ManualMapping.AnswerTakesEffectIff`, `Witnesses.AnswerIsIgnored`), while new records follow it: they are listed only
  if the answer is what was discovered, when the values have no bare quote (`CorrectedAgreement.HybridCorrectedIff`). With
  "O'Household" none is listed under any answer (`Witnesses.QuoteHidesCorrections`), and with other quotes another answer
  can be (`CorrectedAgreement.HybridCorrectedCleanName`, `CorrectedAgreement.OtherAnswerIsListed`).
- The search text is sanitized twice, so that a name with a quote is not found by its own text: the search means what it
  should if and only if the text has no special character, with one exception (`AdapterSearch.AdapterSearchIff`,
  `AdapterSearch.BrienIsNotFound`).
- A mapping that could not be persisted is gone after a restart, and households created under it are then listed only if
  it wrote the Type value "Household" (`MappingCache.RestartRestores`, `MappingCache.UnpersistedIsLost`).
- The rate limiter, described as a sliding window, admits up to 199 requests in a minute and no more
  (`RateLimiter.TraceAtMost199PerMinute`, `RateLimiter.BoundIsReached`).
- A compliance keyword with a space can match across two task fields, and lose the match when a task arrives
  (`Compliance.SurvivesIffInOneField`, `ComplianceReport.CheckSurvivesIff`, `Compliance.SpanningMatchIsLost`).
- A failed composite call resubmits chunks that were already accepted (`TaskBatch.OnceOrTwice`,
  `TaskBatch.BothResubmitted`); with retries an input is sent up to six times (`TaskDelivery.RequestsPerInput`,
  `TaskDelivery.SixRequests`). The workflow engine never makes two tasks for a step if the CRM creates each input once
  (`WorkflowRuns.NeverTwice`) and triggers do not overlap (`WorkflowOverlap.DuplicateIffOverlap`,
  `WorkflowOverlap.BothSend`); when the answer to a composite call is lost, it does (`WorkflowDelivery.StepCopiesAre`,
  `WorkflowDelivery.OnboardingTwice`). Its early continue can drop a missing step when step ids are on record that the
  template does not have (`WorkflowRuns.DropsIff`).
- The token refresh is shared by the whole process: a caller is answered with the token of another session if and only if
  the refresh of another session was in flight when it continued (`SingleFlight.ForeignIff`, `SingleFlight.ForeignRun`).
  A logout is undone if and only if a refresh of the session stores its connection afterwards
  (`SingleFlight.LogoutUndoneIff`, `SingleFlight.LogoutIsUndone`).
- The compliance percentage of an advisor called "Unassigned" can pass 100 (`AdvisorScoreboard.PercentageIff`,
  `AdvisorScoreboard.UnassignedCanExceed`); the score, being capped, cannot (`AdvisorScoreboard.ScoresInRange`).
- Blended assets differ from the sum of the household weights by exactly the unlisted and the negative balances
  (`AumBlending.BlendLaw`, `AumBlending.WeightsSumIff`), and from the sum over advisors by the unlisted balances and the
  households that share a name (`AumBlending.AdvisorAumConserved`).
- An audit action that ends with a blank and a dash, or has the separator inside, is not read back; an error can be shown
  as a success (`AuditSubject.ActionReadsBackIff`, `AuditSubject.ResultReadsBackIff`, `AuditSubject.SeparatorHidesError`).
  An absent field is read from the payload when the payload shows its label (`AuditRoundTrip.TextFieldReadsBackIff`).
- A query stops silently when a later page is refused (`Retry.Query`). It never stops if and only if every page arrives,
  none is the last and the records never reach the cap (`Retry.NeverStopsIff`), as with empty pages that announce another
  (`Retry.EmptyPagesNeverStop`).
- A rejected CSRF token is refreshed only if the first attempt was rejected, and a reply that is the JSON text `null`
  is treated as a lost connection, so the call is sent again (`ClientCalls.LateRejectionIsReturned`,
  `ClientCalls.NullReplyIsRepeated`).

## Assumptions

- SOQL text is read by the grammar of `SoqlQuery`: keywords in upper case as printed, the escapes for backslash, quote,
  `%` and `_`, comparisons with `=` and `LIKE`, AND and OR not mixed without parentheses, and case-sensitive matching.
- A select list ends where the printer puts its FROM (`SelectList`); an object name is a word of the grammar.
- No character lies outside the basic multilingual plane: JavaScript counts UTF-16 units, of which such a character has two.
- The CRM resolves the record type id of a new record to the developer name of that record type; record type ids are
  distinct.
- The CRM returns all workflow tasks of a household when asked. Template ids are prefix-free and step ids have no blanks,
  which `WorkflowRuns.ShippedTemplatesAreWellFormed` proves of the shipped ones.
- A request that the CRM carries out creates one task for each of its inputs that it accepts.
- `toLowerCase` in the compliance scan is an arbitrary function, the same for texts and keywords.
- The clock of a rate-limiter trace never goes back.
- Balances have one entry per household id. Where a result needs unique household ids or names, it says so.
- Arrays have fewer than 2^32 items, the limit of the runtime; the entries of an object have distinct keys.

## Model

| member | source | states |
|---|---|---|
| SoqlLiteral.ChainIsOnePass | frontend/src/lib/sf-client.ts:52-57 | the chain of global replaces, in the order written, equals a one-pass escaper: every character is escaped once and nothing twice |
| SoqlLiteral.SanitizeReadsBack | frontend/src/lib/sf-client.ts:50-58 | when the escaped text fits 200 characters, a literal reader that undoes the escapes consumes the whole body, stops at the printed quote, and returns the input without control characters |
| SoqlLiteral.SanitizeShape | frontend/src/lib/sf-client.ts:50-58 | on every input the result is the escape of a prefix, plus at most one unpaired trailing backslash, never longer than 200; nothing is lost when it fits |
| SoqlLiteral.SanitizedReads | frontend/src/lib/sf-client.ts:50-58 | whenever the cut split no escape, the literal is read to its closing quote and denotes the prefix that was kept |
| SoqlLiteral.ClosesIffNotDangling | frontend/src/lib/sf-client.ts:57 | whatever text follows, the literal is read to the printed quote, as what was kept of the value, if and only if the 200-character cut did not fall inside an escape; with no later quote it otherwise never closes |
| SoqlLiteral.DanglesIff | frontend/src/lib/sf-client.ts:57 | the cut falls inside an escape exactly when the characters kept fill one place less than the limit and the next one is special, a test on the input alone |
| SoqlLiteral.CutCanSplitAnEscape | frontend/src/lib/sf-client.ts:57 | there is an input whose cut falls inside an escape |
| SoqlLiteral.RawReadsBackIffClean | frontend/src/lib/schema-discovery.ts:1362-1383 | a value pasted between quotes without escaping, as the pattern filters are, reads back as itself if and only if it has no quote and no backslash |
| SoqlLiteral.WellEscapedValueIff | frontend/src/lib/schema-discovery.ts:1362-1383 | a pasted value whose quotes and backslashes all belong to escapes is read as itself if and only if it has none |
| SoqlQuery.SanitizedPatternIsExact | frontend/src/lib/sf-client.ts:55 | every `%` and `_` of sanitized text is an exact character of the LIKE pattern, not a wildcard |
| SoqlQuery.LikeIsIncludes | frontend/src/lib/org-query.ts:319 | `LIKE` between two wildcards is substring search for the text between them |
| SoqlQuery.LikeIsEndsWith | frontend/src/lib/org-query.ts:319 | `LIKE` with only the leading wildcard is suffix search |
| SoqlQuery.ParseEquals | frontend/src/lib/org-query.ts:162-167 | a printed equality parses to the comparison of its field exactly as its literal reads, and fails exactly when the literal does |
| SoqlQuery.ParseLike | frontend/src/lib/org-query.ts:319 | the same for the printed LIKE clause |
| OrgQuery.PageParses | frontend/src/lib/org-query.ts:308-309 | the printed ORDER BY, LIMIT and OFFSET are read back as the two numbers, no OFFSET standing for zero |
| OrgQuery.NewestFirst | frontend/src/lib/org-query.ts:305-323 | listing and search both end with the newest first, the limit, and the offset unless it is zero |
| OrgQuery.HybridParsesIffClean | frontend/src/lib/org-query.ts:150-154 | for any two or more patterns: the parenthesised OR parses to exactly their disjunction, leaving what follows untouched, if and only if no value has a quote or a backslash |
| OrgQuery.TermAndTerm | frontend/src/lib/org-query.ts:320 | a term followed by AND and a second term is read as the conjunction of the two, whatever the first is made of: the parentheses survive the appended AND |
| OrgQuery.CleanChainParses | frontend/src/lib/org-query.ts:150-154 | a chain of any number of clean equalities joined by OR is read as all of them, in order |
| OrgQueryMeaning.SingleFilterText | frontend/src/lib/org-query.ts:156-170 | outside hybrid mappings the filter is one sanitized equality, on record type, on a safe field, on Type for an unsafe one, or nothing |
| OrgQueryMeaning.FilterIsTerm | frontend/src/lib/org-query.ts:146-171 | every non-empty filter, whatever text follows it, is a single term of the grammar read as the intended condition if and only if it is printable: no raw value with a quote or a backslash, no sanitized value cut inside an escape |
| OrgQueryMeaning.ListParses | frontend/src/lib/org-query.ts:305-310 | every list query parses to the intended fields, object, condition, limit and offset if and only if the mapping is printable, in the hybrid, single, default and empty cases |
| OrgQueryMeaning.HybridListIffClean | frontend/src/lib/org-query.ts:146-154 | a hybrid list query parses to the intended condition if and only if no pattern value has a quote or a backslash |
| OrgQueryMeaning.DanglingListFails | frontend/src/lib/org-query.ts:162-167 | a filter value cut inside an escape makes the whole list query unreadable |
| OrgQueryMeaning.NameClauseParses | frontend/src/lib/org-query.ts:318-319 | the name clause parses, for every query text, to a LIKE with the text kept exact; after a cut inside an escape the closing wildcard is a literal `%` |
| OrgQueryMeaning.NameCondMeaning | frontend/src/lib/org-query.ts:318-319 | that condition selects a name if and only if it contains the text, or, after such a cut, ends with the text and a `%` |
| OrgQueryMeaning.SearchParses | frontend/src/lib/org-query.ts:315-323 | every search query parses to exactly the household condition and the name condition if and only if the mapping is printable |
| OrgQueryMeaning.SingleSearchIff | frontend/src/lib/org-query.ts:315-323 | with a single filter, a search is read as intended if and only if the filter value is not cut inside an escape |
| OrgQueryMeaning.DanglingSearchFails | frontend/src/lib/org-query.ts:315-323 | a filter value cut inside an escape makes the whole search unreadable: its literal runs on to the quote before the wildcard |
| OrgQueryMeaning.HybridSearchIffClean | frontend/src/lib/org-query.ts:315-323 | a hybrid search parses as intended if and only if no pattern value has a quote or a backslash |
| OrgQueryMeaning.SearchSelects | frontend/src/lib/org-query.ts:315-323 | over all records: with a printable mapping a search selects exactly the households whose name contains the query text; with a single filter it is a query if and only if it is printable |
| AdapterSearch.AdapterSearchIff | frontend/src/lib/crm/adapters/salesforce.ts:236-248 | the search the application makes, which sanitizes its text twice, asks for exactly the names that contain the text if and only if the text is at most 200 characters without special or control characters, or plain characters and trailing backslashes that fill the literal to the last place once escaped |
| AdapterSearch.AdapterSearchSelects | frontend/src/lib/crm/adapters/salesforce.ts:236-248 | for such a text and a printable mapping it returns exactly the households whose name contains the text |
| AdapterSearch.SpecialNameIsNotFound | frontend/src/lib/crm/adapters/salesforce.ts:236-248 | a name of at most 50 characters with a quote, a percent sign, an underscore or a backslash is not found by its own text |
| AdapterSearch.BrienIsNotFound | frontend/src/lib/crm/adapters/salesforce.ts:236-248 | as is "O'Brien" |
| OrgQueryMeaning.ListSelects | frontend/src/lib/org-query.ts:305-310 | over all records: with a printable mapping a listing selects exactly the records that pass the household test; with a single filter it is a query if and only if it is printable |
| SchemaDiscovery.DetectHousehold | frontend/src/lib/schema-discovery.ts:836-971 | the loop over the packages with its early return, and the branches after it, give the first household model in order of precedence; what that is, field by field, is `HouseholdDetection.ClassifiedObject` and `HouseholdDetection.ClassifiedFilter` |
| SchemaDiscovery.DetectAllHouseholdPatterns | frontend/src/lib/schema-discovery.ts:1345-1391 | all checks run, in order, and the final confidence filter drops nothing |
| SchemaDiscovery.DetectPackagePatterns | frontend/src/lib/schema-discovery.ts:1352-1357 | one pattern per managed package whose household object was found |
| SchemaDiscovery.AddObjectPatterns | frontend/src/lib/schema-discovery.ts:1359-1388 | the record type, Type value and custom object patterns are pushed after those already found |
| SchemaDiscovery.ClassifyOrgHeuristic | frontend/src/lib/schema-discovery.ts:757-832 | the four detectors and the pattern list together; what the parts are is stated by `HouseholdDetection` and `FieldDetection` |
| SchemaDiscovery.ConfidenceIsAverage | frontend/src/lib/schema-discovery.ts:801-810 | the confidence of a mapping is the average of its four parts to the nearest hundredth, halves going up |
| HouseholdDetection.ClassifiedObject | frontend/src/lib/schema-discovery.ts:836-971 | over every bundle, by position: households are kept in the object of the first of the three packages that is found and described; or else in accounts, on record type, Type or counted data evidence or on none at all; or else in the first candidate object named after a group |
| HouseholdDetection.ListedObject | frontend/src/lib/org-query.ts:305-310 | every listing of a classified bundle that can be read queries that object |
| HouseholdDetection.ClassifiedFilter | frontend/src/lib/schema-discovery.ts:836-971 | over every bundle, by position: which record type, Type value or data value the household is filtered by, and with which confidence |
| HouseholdDetection.RecordTypeFilterText | frontend/src/lib/org-query.ts:156-170 | from the metadata to the text: outside hybrids the filter printed is the sanitized name of the record type found, on its developer name |
| HouseholdDetection.TypeFilterText | frontend/src/lib/org-query.ts:156-170 | or the sanitized declared Type value found |
| HouseholdDetection.DataFilterText | frontend/src/lib/org-query.ts:156-170 | or the sanitized counted Type value found |
| HouseholdDetection.NoFilterText | frontend/src/lib/org-query.ts:156-170 | or nothing, on an object of its own or without account evidence |
| HouseholdDetection.HybridEvidence | frontend/src/lib/schema-discovery.ts:1345-1391 | a classified bundle is hybrid if and only if an active record type says household and so does a declared or counted Type value |
| FieldDetection.ClassifiedAdvisor | frontend/src/lib/schema-discovery.ts:1395-1404 | a household among the accounts takes its advisor from the first custom reference to users labelled so, or from the owner when there is none |
| FieldDetection.ClassifiedContact | frontend/src/lib/schema-discovery.ts:973-1064 | contacts point at the household by their first reference to its object, or by their account; a junction names a described object and its first references to contacts and to households, and outside accounts none is missed |
| FieldDetection.ClassifiedFinancialAccount | frontend/src/lib/schema-discovery.ts:1066-1126 | financial accounts are available if and only if their object is described or a candidate object is named after them, and the balance and the lookup named are a currency and a reference of that object |
| FieldDetection.ClassifiedAum | frontend/src/lib/schema-discovery.ts:1128-1175 | assets are rolled up if and only if financial accounts have a balance field and records; or else read from a field of accounts that sums them; and not found only when there is no such field |
| SchemaDiscovery.ConfidenceBounds | frontend/src/lib/schema-discovery.ts:836-1175 | lower and upper bounds of the four confidences over all branches of the detectors |
| SchemaDiscovery.AgreesIff | frontend/src/lib/schema-discovery.ts:836-971 | the household falls back exactly when no pattern is listed, and otherwise has the confidence of the first listed pattern, if and only if a managed package that was found was also described, or a household record type exists |
| ReadWriteAgreement.ClassifiedPatterns | frontend/src/lib/schema-discovery.ts:1345-1391 | the account patterns of a classified mapping are exactly its record type and Type evidence, printed raw |
| ReadWriteAgreement.ClassifiedIsHybridIff | frontend/src/lib/schema-discovery.ts:1345-1391 | a classified mapping prints the compound filter if and only if it has both a household record type and a household Type value |
| ReadWriteAgreement.OwnObjectFilterIsEmptyIff | frontend/src/lib/org-query.ts:146-171 | a household on its own object has an empty filter if and only if the mapping is not hybrid; without a managed package always |
| ReadWriteAgreement.DefaultAgrees | frontend/src/lib/org-query.ts:147 | before any discovery, a household created from the defaults is listed by the default filter |
| ReadWriteAgreement.CreatedFields | frontend/src/lib/org-query.ts:328-335 | for any mapping: a new household carries the name and the description it was given, and the Type and the record type of the mapping |
| ReadWriteAgreement.CreatedIsFoundIff | frontend/src/lib/org-query.ts:315-335 | the write path and the search together, for any printable mapping: a new household is found by a search text if and only if it is listed and the name it was created with contains what is kept of the text, or ends with that and a `%` when the text was cut inside an escape |
| ReadWriteAgreement.CreatedIsFoundByName | frontend/src/lib/org-query.ts:315-335 | so a listed household is found by its own name, when that fits the literal and has no control character |
| ReadWriteAgreement.SingleFilterListsIff | frontend/src/lib/org-query.ts:162-170 | a single filter lists exactly the records that carry what its literal denotes, and none when the cut split an escape |
| ReadWriteAgreement.CreatedHasAtom | frontend/src/lib/org-query.ts:328-335 | for every classified mapping: the record written carries the field and value that the mapping filters by, unless that is a record type without an id, which it then lacks |
| ReadWriteAgreement.DenotedIff | frontend/src/lib/sf-client.ts:50-58 | the sanitized value denotes the value itself if and only if it fits and has no control character |
| ReadWriteAgreement.SingleAgreesIff | frontend/src/lib/org-query.ts:328-335 | for every bundle that is not hybrid: the new household is listed by the filter of its own mapping if and only if there is no filter, or the filter value fits its literal, has no control character and, when it names a record type, that has an id |
| HybridAgreement.HybridAgreesIff | frontend/src/lib/org-query.ts:328-335 | for every hybrid bundle whose two values have no bare quote: the new household is listed by its own mapping if and only if no managed package supplies the household, the record type has an id and a name that needs no escaping, and every backslash of the Type value starts an escape |
| HybridAgreement.HybridCleanNameIff | frontend/src/lib/org-query.ts:328-335 | for every hybrid bundle with a clean record type name, and any Type value: the new household is listed only if that value ends inside its own literal; when the record type has an id and no managed package supplies the household, it is listed if and only if the listing is a query and the household meets what the value added after the list, which is nothing when it has no closing parenthesis |
| HybridAgreement.CleanNameListedIff | frontend/src/lib/org-query.ts:146-154 | for any Type value at all: a record of a clean record type is listed if and only if the listing is a query and the record meets the conditions the value added after the list |
| HybridAgreement.ReadableIsNotEnough | frontend/src/lib/org-query.ts:146-154 | such conditions are real: a Type value with bare quotes and parentheses gives a listing that is a query and misses the household |
| HybridAgreement.BareQuotesListMore | frontend/src/lib/org-query.ts:146-154 | and a Type value with bare quotes can be read as two alternatives, of which the listing lists the second too |
| HybridAgreement.PairReadableIff | frontend/src/lib/org-query.ts:146-154 | with no bare quote in the two values, the listing is a query if and only if every backslash in both starts an escape |
| HybridAgreement.PairSelectsIff | frontend/src/lib/org-query.ts:146-154 | the records such a listing selects: those with the record type or the Type the escapes denote |
| QuoteBalance.TermConsumed | frontend/src/lib/org-query.ts:305-323 | whatever term is read, the text it consumes begins and ends outside literals and has no backslash outside them |
| QuoteBalance.ReadableListIsBalanced | frontend/src/lib/org-query.ts:305-310 | a listing is a query only if its filter begins and ends outside literals, for any mapping |
| QuoteBalance.PairBalance | frontend/src/lib/org-query.ts:150-154 | when the list printed from two raw values ends outside literals |
| CorrectedAgreement.HybridCorrectedIff | frontend/src/lib/manual-mapping.ts:163-207 | in a hybrid bundle whose two values have no bare quote: a household created after the user's correction is listed if and only if both values are well escaped and the answer names the discovered Type value or record type itself, as the escapes read, the latter with an id |
| CorrectedAgreement.HybridCorrectedCleanName | frontend/src/lib/manual-mapping.ts:163-207 | in a hybrid bundle with a clean record type name, and any Type value: nothing created under any answer is listed unless that value ends inside its own literal, and an answer naming the discovered record type, with an id, is listed exactly when the listing is a query and the record meets what the value added |
| CorrectedAgreement.OtherAnswerIsListed | frontend/src/lib/manual-mapping.ts:163-207 | with bare quotes an answer other than what was discovered can be listed |
| CorrectedAgreement.AppliedCorrects | frontend/src/lib/manual-mapping.ts:163-207 | an option printed, sent back, parsed and applied gives a mapping of the household it names over the patterns discovered |
| CorrectedAgreement.SingleCorrectedIff | frontend/src/lib/manual-mapping.ts:163-207 | in any other bundle: it is listed if and only if the answer names no value, or one that fits, has no control character and, as a record type, has an id |
| MappingCache.Cache.SetOrgMapping | frontend/src/lib/org-query.ts:19-25 | the module variable and the cookie after a set that was or was not persisted |
| MappingCache.Cache.ClearOrgMapping | frontend/src/lib/org-query.ts:31-34 | the same for a clear |
| MappingCache.Cache.EnsureMappingLoaded | frontend/src/lib/org-query.ts:40-51 | the same for the restoring at the start of a request |
| MappingCache.CookieIsLastPersisted | frontend/src/lib/org-query.ts:58-104 | over every sequence of events: a session's cookie holds a mapping if and only if some event persisted it for the session and no later one persisted another or deleted it |
| MappingCache.CachedIsInForce | frontend/src/lib/org-query.ts:17-51 | over every sequence of events: a mapping is in force if and only if some event set it and nothing was set, cleared or restarted since, or some request was the first since the last clear or restart whose session had a readable cookie, with this mapping in it |
| MappingCache.NothingInForceIff | frontend/src/lib/org-query.ts:17-51 | none is in force if and only if nothing was set, and no request brought a mapping back, since the last clear or restart |
| MappingCache.InForceWasSet | frontend/src/lib/org-query.ts:17-51 | a mapping in force was set before, by some session |
| MappingCache.RestartRestores | frontend/src/lib/org-query.ts:36-51 | the first request after a restart brings back a mapping if and only if it is the last one its session persisted and has not deleted |
| MappingCache.ServedToAll | frontend/src/lib/org-query.ts:17-51 | until the next set, clear or restart every session is served the mapping in force, whosever it is |
| MappingCache.ListedAfterLossIff | frontend/src/lib/org-query.ts:146-147 | a household created under a mapping that is then lost is listed by the defaults if and only if the mapping wrote the Type value "Household" |
| MappingCache.UnpersistedIsLost | frontend/src/lib/org-query.ts:19-51 | the same for a mapping that was not persisted, a restart, and the next request of the same session |
| Witnesses.QuoteInHybrid | frontend/src/lib/org-query.ts:150-154 | a bundle with the Type value "O'Household": no listing is a query and no search is the one meant |
| Witnesses.QuoteHidesHousehold | frontend/src/lib/org-query.ts:328-335 | a household created under that bundle's mapping is not listed by it |
| Witnesses.QuoteHidesCorrections | frontend/src/lib/manual-mapping.ts:163-207 | nor is a household created after any correction of that mapping |
| Witnesses.AccountFilterOnOwnObject | frontend/src/lib/org-query.ts:146-154 | a bundle whose account filter is printed against the object of a managed package |
| Witnesses.DetectorsDisagree | frontend/src/lib/schema-discovery.ts:836-971 | a bundle whose package is listed at 95 while the household is the last resort at 40 |
| Witnesses.AnswerIsIgnored | frontend/src/lib/manual-mapping.ts:163-207 | a bundle for which no answer of the user is what is printed |
| StableSort.SortIsPermutation | frontend/src/lib/manual-mapping.ts:105 | sorting keeps every element |
| StableSort.SortIsSorted | frontend/src/lib/manual-mapping.ts:105 | the result is in ascending order of the key |
| StableSort.SortIsStable | frontend/src/lib/manual-mapping.ts:105 | elements of equal key keep their order |
| StableSort.SortedIsFixed | frontend/src/lib/home-stats.ts:441 | a list already in order is left as it is |
| ManualMapping.BuildMappingChoices | frontend/src/lib/manual-mapping.ts:36-159 | the three lists are what was pushed, sorted by descending confidence |
| ManualMapping.PushHouseholdOptions | frontend/src/lib/manual-mapping.ts:47-103 | record types, Type values, data values not listed yet, custom objects and the fallback, in this order |
| ManualMapping.PushTypeValues | frontend/src/lib/manual-mapping.ts:62-76 | one option per active Type value, in order |
| ManualMapping.PushObjects | frontend/src/lib/manual-mapping.ts:92-99 | one option per candidate object, in order |
| ManualMapping.PushFieldOptions | frontend/src/lib/manual-mapping.ts:110-154 | the advisor options from user references other than the owner, and the asset options from currency fields |
| ManualMapping.PrintIsInjective | frontend/src/lib/manual-mapping.ts:54-101 | different choices are printed as different option values |
| ManualMapping.HouseholdOptionNames | frontend/src/lib/manual-mapping.ts:47-103 | every option pushed is the printed form of a choice; distinct inputs give distinct choices |
| ManualMapping.HouseholdOptionsOffered | frontend/src/lib/manual-mapping.ts:36-159 | the list offered is never empty, is a permutation of what was pushed in descending confidence with ties in order, and repeats no value when the inputs are distinct |
| OfferedChoices.EverythingOffered | frontend/src/lib/manual-mapping.ts:47-103 | every active record type but the master, every active Type value, every candidate object and all accounts are offered, each with its confidence, and nothing else but Type values found in the data |
| OfferedChoices.EveryDataValueOffered | frontend/src/lib/manual-mapping.ts:74-85 | every Type value found in the data is offered |
| OfferedChoices.FieldsOffered | frontend/src/lib/manual-mapping.ts:107-154 | the advisor fields offered are exactly the owner and the references to users, the asset fields exactly none and the currency fields |
| ManualMapping.PrintedChoiceParses | frontend/src/app/page.tsx:300-307 | every printed option parses back to its choice, colons in the value included |
| ManualMapping.ApplyManualMapping | frontend/src/lib/manual-mapping.ts:163-244 | the corrected mapping, field by field, for each kind of answer |
| ManualMapping.ManualMappingIsConfident | frontend/src/lib/manual-mapping.ts:227-236 | for every bundle and answer the corrected mapping is at least as confident as the heuristic one and never low-confidence |
| ManualMapping.AnswerTakesEffectIff | frontend/src/lib/manual-mapping.ts:163-207 | an option printed, parsed and applied yields the object and the filter it names if and only if its value is not empty and the bundle is not hybrid |
| RateLimiter.Limiter.CheckRateLimit | frontend/src/proxy.ts:25-34 | one request replaces the entry of its own address and no other, and is admitted while the count is at most 100 |
| RateLimiter.Limiter.Serve | frontend/src/proxy.ts:25-34 | serving any trace gives the answers the trace specification says |
| RateLimiter.AnswerDependsOnOwnTimes | frontend/src/proxy.ts:25-34 | an answer depends only on the times of the same address |
| RateLimiter.AtMost100PerWindow | frontend/src/proxy.ts:21-34 | at most 100 requests are admitted in each window of the limiter |
| RateLimiter.AtMost199PerMinute | frontend/src/proxy.ts:21-34 | at most 199 requests are admitted in any half-open minute |
| RateLimiter.RefusedOnlyAfter100 | frontend/src/proxy.ts:21-34 | a refusal means 100 admissions of the address in the preceding minute |
| RateLimiter.TraceAtMost199PerMinute | frontend/src/proxy.ts:21-34 | over every trace of all addresses with a clock that never goes back: at most 199 admissions per address in any minute |
| RateLimiter.TraceRefusedOnlyAfter100 | frontend/src/proxy.ts:21-34 | over every such trace: refused only after 100 admissions of that address in the preceding minute |
| RateLimiter.BoundIsReached | frontend/src/proxy.ts:21-34 | a trace with a clock that never goes back and 199 admissions of one address within one minute: the bound cannot be lowered |
| Compliance.SearchAcrossSpace | frontend/src/lib/compliance-engine.ts:265 | an occurrence in two texts joined by a space lies in one of them or crosses the space |
| Compliance.JoinedSearch | frontend/src/lib/compliance-engine.ts:263-268 | searching the joined text finds a keyword if and only if one field contains it or it spans consecutive fields |
| Compliance.SpacelessNeverSpans | frontend/src/lib/compliance-engine.ts:263-268 | a keyword without a space never spans fields |
| Compliance.ScanIsFieldwise | frontend/src/lib/compliance-engine.ts:263-268 | a keyword in one field is always found; one without spaces is found if and only if one field contains it |
| Compliance.SurvivesIffInOneField | frontend/src/lib/compliance-engine.ts:263-268 | for a keyword with no blank at an end: a match survives every way of adding tasks if and only if one field contains it |
| Compliance.SpanningMatchIsLost | frontend/src/lib/compliance-engine.ts:263-268 | a match across a subject and a description that the arrival of another task destroys |
| ComplianceReport.CheckSurvivesIff | frontend/src/lib/compliance-engine.ts:271 | a check whose keywords have no blank at an end is met whatever tasks are added if and only if a single field contains one of them |
| Compliance.SubjectAndBlankSurvives | frontend/src/lib/compliance-engine.ts:263-268 | a keyword that ends in a blank, met at the end of a subject, survives every way of adding tasks |
| Compliance.UntrimmedSurvives | frontend/src/lib/compliance-engine.ts:263-268 | so "ira " survives at the end of a subject although no field contains it |
| ComplianceReport.PushChecks | frontend/src/lib/compliance-engine.ts:285-461 | a group of checks is pushed in order with the status its keywords give |
| ComplianceReport.PushGeneralChecks | frontend/src/lib/compliance-engine.ts:285-461 | the checks every household gets, the two conditional ones included |
| ComplianceReport.PushAccountChecks | frontend/src/lib/compliance-engine.ts:479-565 | the checks of the account type and the custom checks of the firm are pushed after those before; which they are is stated by `ComplianceReport.ReportHolds` |
| ComplianceReport.AttachRemediation | frontend/src/lib/compliance-engine.ts:567-572 | the second pass marks exactly the open checks that have a template and changes nothing else |
| ComplianceReport.RunComplianceChecks | frontend/src/lib/compliance-engine.ts:254-575 | the report of every scan, check by check: which id is reported, how often, and with which status, the firm's own checks last and in order, nothing else, and a remediation on exactly the open results that have a template |
| ComplianceReport.ReportHolds | frontend/src/lib/compliance-engine.ts:285-572 | with every id written out: the ten checks of every household once each; the rollover check once, if and only if a rollover is found or the account is a retirement one; the ACH check if and only if one is found; the trust, entity and retirement checks if and only if the account is of that type; the annual review after 365 days; each with its own status when its keywords are not found |
| ComplianceReport.HasCheckIsMonotone | frontend/src/lib/compliance-engine.ts:271 | a check met by space-free keywords stays met when tasks are added |
| ComplianceReport.ReportedStatus | frontend/src/lib/compliance-engine.ts:285-549 | a built-in result passes if and only if its keywords are found |
| ComplianceReport.AddingTasksKeepsPasses | frontend/src/lib/compliance-engine.ts:254-575 | adding or moving tasks never turns a passing check with space-free keywords into warn or fail: no built-in check, and none of the firm's own when their ids are distinct |
| Workflows.StepRoundTrip | frontend/src/lib/workflows.ts:217-223 | the step id printed into a description is the one the engine extracts |
| Workflows.BelongsOnlyToItsTemplate | frontend/src/lib/workflows.ts:212-215 | a task belongs to the template it was printed for and, ids being prefix-free, to no other |
| Workflows.SendTasks | frontend/src/lib/workflows.ts:260-266 | a batch of tasks adds to the store the copies the CRM made of each input, and to the counters what it reported |
| Workflows.FireOne | frontend/src/lib/workflows.ts:208-267 | one turn of the loop, its early continue included |
| Workflows.FireAll | frontend/src/lib/workflows.ts:208-269 | the loop over the matching templates, stopped by a batch that throws |
| Workflows.FireWorkflowTrigger | frontend/src/lib/workflows.ts:188-270 | a whole trigger: the loop over the templates it selects; which they are, and what each leaves on record, is stated by `WorkflowTriggers` |
| Workflows.ExistingIffCounted | frontend/src/lib/workflows.ts:217-223 | a step id is found in the store if and only if the household has a task for it |
| WorkflowRuns.CountAfterProcess | frontend/src/lib/workflows.ts:229-266 | exactly the missing steps gain tasks, as many as the CRM makes copies of the input, and every other count is unchanged |
| WorkflowRuns.DropsIff | frontend/src/lib/workflows.ts:225-231 | the early continue drops a missing step if and only if, outside document expiration, at least as many step ids on record are foreign to the template as steps are missing; with no foreign id never, by a pigeonhole on the step ids |
| WorkflowRuns.AllDoneIff | frontend/src/lib/workflows.ts:227 | the count test holds if and only if there are tasks and the foreign ids on record are at least as many as the missing steps |
| WorkflowRuns.ContinueOnlySkipsCounting | frontend/src/lib/workflows.ts:225-231 | the early continue, and the document-expiration exception to it, change the skipped-step count and nothing else if and only if no missing step is dropped |
| WorkflowRuns.CountAfterFire | frontend/src/lib/workflows.ts:208-267 | the same for one turn of the loop; when the early continue is taken no count changes |
| WorkflowTriggers.OthersUntouched | frontend/src/lib/workflows.ts:202-206 | a template that is disabled, has another trigger, or filters by a text the subject does not contain gains no task in any step of any household, and is not reported as triggered |
| WorkflowTriggers.SelectedGetsTurn | frontend/src/lib/workflows.ts:202-267 | a template that is enabled, has this trigger and meets its filter gets its turn unless a template listed before it throws: whatever else is fired, each of its steps gains what one turn adds to the record before the trigger |
| WorkflowTriggers.SelectedIsCompleted | frontend/src/lib/workflows.ts:202-267 | after a trigger that does not throw and whose inputs were all created, such a template has a task for each step if and only if its early continue drops none |
| WorkflowTriggers.TriggeredInOrder | frontend/src/lib/workflows.ts:202-265 | the names reported as triggered are those of selected templates at increasing places of the list |
| WorkflowTriggers.TurnReports | frontend/src/lib/workflows.ts:227-266 | a turn that does not throw counts every step once, as created, as an error or as skipped, unless the early continue is taken: no error when the CRM reports every input, nothing created when it reports none; it reports the template exactly when a step was missing, and throws exactly when its batch does |
| WorkflowTriggers.SentIsMissing | frontend/src/lib/workflows.ts:229-259 | every input sent is for a step that is missing, with its subject, the household and the step id where the engine will look for it |
| WorkflowRuns.FireTemplatesKeeps | frontend/src/lib/workflows.ts:208-267 | a trigger keeps: at most n tasks per household, template and step, when the CRM makes at most n copies of each input sent |
| WorkflowRuns.NeverTwice | frontend/src/lib/workflows.ts:188-269 | over every sequence of triggers, one after the other, with any partial failures and anything on record: never two tasks for the same step, when the CRM creates each input sent at most once |
| WorkflowRuns.NeverMore | frontend/src/lib/workflows.ts:188-269 | over every such sequence: never more than n tasks for the same step, when the CRM makes at most n copies of each input sent |
| WorkflowRuns.TwiceIff | frontend/src/lib/workflows.ts:208-267 | one turn of the loop leaves two tasks for a step if and only if the CRM makes two or more copies of the input of a missing step |
| WorkflowOverlap.DuplicateIffOverlap | frontend/src/lib/workflows.ts:208-262 | over every interleaving of turns whose query and batch are separate steps, each input being created at most once: a step ends with two tasks if and only if two turns added it, the second of which queried before the first one sent |
| WorkflowOverlap.NoOverlapNoDuplicate | frontend/src/lib/workflows.ts:208-262 | when every batch directly follows its query, never two tasks for a step |
| WorkflowOverlap.BothSend | frontend/src/lib/workflows.ts:208-262 | two triggers that both query before either sends leave two tasks for every missing step |
| WorkflowOverlap.TurnIsLookAndSend | frontend/src/lib/workflows.ts:208-267 | a turn of the loop is a query and its batch with nothing in between |
| WorkflowDelivery.AtMostSixPerStep | frontend/src/lib/workflows.ts:260-266 | over every sequence of triggers whose batches, as the engine decides them, go through the real batch: never more than six tasks for the same step |
| WorkflowDelivery.StepCopiesAre | frontend/src/lib/workflows.ts:260-266 | a missing step, at its place in the batch the engine sends, ends with one task for each request that carried its input and was carried out: two or more if and only if two of those were, and at most three when it was the only one missing |
| WorkflowDelivery.OnboardingTwice | frontend/src/lib/workflows.ts:66-177 | the onboarding of a household with an empty record, while composite answers are lost: every one of its six steps ends with two tasks |
| WorkflowRuns.FreshStore | frontend/src/lib/workflows.ts:188-269 | a store without workflow tasks has no task for any step |
| WorkflowRuns.SuccessCompletes | frontend/src/lib/workflows.ts:188-269 | a turn with every input created leaves every step with a task if and only if the early continue dropped none |
| WorkflowRuns.RefiringCreatesNothing | frontend/src/lib/workflows.ts:188-269 | firing again after every input was created, once or more often, creates nothing, triggers nothing and reports no error, whatever else is on record |
| WorkflowRuns.ShippedTemplatesAreWellFormed | frontend/src/lib/workflows.ts:66-177 | the two shipped templates meet the assumptions on ids |
| SingleFlight.Reachable | frontend/src/lib/sf-connection.ts:120-212 | every state reachable by callers of any sessions, each with its own cookie, under any interleaving at the await points (the cookie read included) satisfies the invariant |
| SingleFlight.AtMostOneInFlight | frontend/src/lib/sf-connection.ts:171-212 | at most one token refresh is in flight |
| SingleFlight.SlotFreeIffIdle | frontend/src/lib/sf-connection.ts:171-212 | the slot is free if and only if no refresh is in flight |
| SingleFlight.SameOutcome | frontend/src/lib/sf-connection.ts:173-212 | callers that joined one refresh get one outcome |
| SingleFlight.StoredBeforeReturned | frontend/src/lib/sf-connection.ts:196-204 | no caller has a refreshed token that was not stored first, in the cookie of the session that started the refresh |
| SingleFlight.StartsOnlyWhenIdle | frontend/src/lib/sf-connection.ts:173-177 | a refresh starts only from a caller that read an expired token, when none is in flight, and one at a time |
| TokenAnswers.RefreshedToken | frontend/src/lib/sf-connection.ts:173-204 | over every run: a token got from a refresh is the one the token endpoint answered that refresh with, and the refresh was started from an expired connection with a refresh token, read by a caller of its session |
| TokenAnswers.StoredIsAnswered | frontend/src/lib/sf-connection.ts:196-203 | over every run: every connection stored is such an answer, with the refresh token it was got with and the new expiry, stored for the session of its refresh |
| TokenAnswers.UnrefreshedToken | frontend/src/lib/sf-connection.ts:120-136 | over every run: a token returned without a refresh was read from the caller's own cookie and had not expired when it continued |
| TokenAnswers.FellThroughAlone | frontend/src/lib/sf-connection.ts:120-136 | over every run: a caller falls through without a refresh only if it read no connection, or an expired one without a refresh token |
| SingleFlight.SettledIsFinal | frontend/src/lib/sf-connection.ts:173-212 | a settled refresh never changes |
| SingleFlight.ForeignIff | frontend/src/lib/sf-connection.ts:120-177 | over every run: a caller that read an expired token is answered by the refresh of another session if and only if one was in flight when it continued |
| SingleFlight.ForeignToken | frontend/src/lib/sf-connection.ts:173-204 | such an answer is a token stored for the other session |
| SingleFlight.ForeignRun | frontend/src/lib/sf-connection.ts:120-204 | a run in which a caller of one session is given the token of another and its own cookie stays as it was |
| SingleFlight.LogoutUndoneIff | frontend/src/lib/sf-connection.ts:95-98 | over every run: after a logout, and until the next login or logout, the session has a cookie if and only if a refresh it started stored its connection in the meantime |
| SingleFlight.LogoutHolds | frontend/src/lib/sf-connection.ts:95-98 | with no such refresh in flight and no caller of the session that has read its cookie, the logout holds |
| SingleFlight.LogoutIsUndone | frontend/src/lib/sf-connection.ts:173-204 | a run in which a session has a cookie again after logging out |
| TaskBatch.CreateTasksBatch | frontend/src/lib/sf-client.ts:366-443 | for every service: what is submitted; invalid if and only if some household id, or contact id that is given, does not match the pattern; and otherwise every created answer as a record and every refused one as an error, in order and with multiplicity |
| TaskBatch.SendChunks | frontend/src/lib/sf-client.ts:390-442 | chunks of 25 concatenate to the input; a failed call abandons what was collected and resubmits every input |
| TaskBatch.CreateTasksSequential | frontend/src/lib/sf-client.ts:450-461 | the fallback submits every input once and reports every answer |
| TaskBatch.CollectAnswers | frontend/src/lib/sf-client.ts:428-435 | answers are sorted into records and errors, in order; which go where is `TaskBatch.AnswersAreSortedOut` |
| TaskBatch.AnswersAreSortedOut | frontend/src/lib/sf-client.ts:428-435 | the records are the ids of exactly the created answers and the errors the messages of exactly the refused ones, both at increasing places and together as many as there are answers |
| TaskBatch.AnswerOfInput | frontend/src/lib/sf-client.ts:366-461 | the answer reported for an input is that of its own create when it is the only one or a composite call fails, and otherwise that of its place in the call of its 25 |
| TaskBatch.AllCreated | frontend/src/lib/sf-client.ts:366-461 | when every answer of the run is a created task there is no error and one record for each input, in order |
| TaskBatch.ValidIffMatches | frontend/src/lib/sf-client.ts:33-37 | an id is valid if and only if it is fifteen letters or digits, or these and three more |
| TaskBatch.BothLengthsAccepted | frontend/src/lib/sf-client.ts:33-37 | ids of both lengths are accepted |
| TaskBatch.OnceOrTwice | frontend/src/lib/sf-client.ts:390-442 | an input is part of two calls if and only if there are several and it lies in a chunk up to and including the failing one, and of one call otherwise |
| TaskBatch.BothResubmitted | frontend/src/lib/sf-client.ts:420-440 | a service for which both of two inputs are part of two calls |
| TaskDelivery.RequestsPerInput | frontend/src/lib/sf-client.ts:108-154 | through the retry loop: the requests that carry an input are every try of its composite call, unless it is the only input or that call comes after the failing one, and after a failure or for an only input every try of its single create; at most six, and at most three for an only input |
| TaskDelivery.SixRequests | frontend/src/lib/sf-client.ts:108-154 | when nothing gets through, six are made, and three for an only input |
| TaskDelivery.DuplicatedIff | frontend/src/lib/sf-client.ts:366-461 | an input gets two or more tasks if and only if the CRM carried out two of its requests, and never more than six, or three for an only input |
| TaskDelivery.LostAnswerDuplicates | frontend/src/lib/sf-client.ts:436-440 | in a batch of several, a composite call carried out whose answer is lost duplicates its inputs and those of the calls before it |
| TaskBatch.OneOutcomePerInput | frontend/src/lib/sf-client.ts:366-461 | given one sub-response per sub-request, every run reports exactly one outcome per input |
| TaskBatch.EveryAnswerReported | frontend/src/lib/sf-client.ts:428-435 | every answer is reported once |
| TaskBatch.ReferenceIdsDistinct | frontend/src/lib/sf-client.ts:395 | reference ids never repeat, within a chunk or across chunks |
| PracticeTypes.RoundBounds | frontend/src/app/dashboard/usePracticeData.ts:388-391 | half-up rounding of a quotient stays within integer bounds of the quotient |
| PracticeTypes.RoundIsMonotone | frontend/src/app/dashboard/usePracticeData.ts:388-391 | half-up rounding is monotone |
| Pipeline.CollectFlags | frontend/src/app/dashboard/usePracticeData.ts:357-365 | the flags of each household name are the evidence of its tasks |
| Pipeline.BuildStages | frontend/src/app/dashboard/usePracticeData.ts:357-379 | each stage holds its names in the order the households were first seen |
| Pipeline.ConversionRates | frontend/src/app/dashboard/usePracticeData.ts:387-391 | the four conversion rates |
| Pipeline.StageMeans | frontend/src/app/dashboard/usePracticeData.ts:357-379 | the stage of a household told from the subjects and states of its tasks: reviewed, signed and met; or reviewed; or signed; or sent; or none of these |
| Pipeline.BeyondIs | frontend/src/app/dashboard/usePracticeData.ts:387-391 | the numerator of a conversion rate is the number of names past the stage |
| Pipeline.RateIs | frontend/src/app/dashboard/usePracticeData.ts:387-391 | a conversion rate is the whole percentage nearest to the share of the names past the stage, halves going up |
| Pipeline.InExactlyOneStage | frontend/src/app/dashboard/usePracticeData.ts:373-379 | a name is in a stage if and only if it is a household name and that is its stage |
| Pipeline.PipelineIsPartition | frontend/src/app/dashboard/usePracticeData.ts:357-391 | each household name, and nothing else, is in the list of its own stage, once, and in no other; the counts sum to the names; the four rates fall within 0 and 100 |
| Pipeline.NeverBackwards | frontend/src/app/dashboard/usePracticeData.ts:359-378 | adding, completing or reordering tasks never moves a household to an earlier stage |
| Pipeline.OrderDoesNotMatter | frontend/src/app/dashboard/usePracticeData.ts:359-378 | the stage does not depend on the order of the tasks |
| AdvisorScoreboard.AssignDemoAdvisors | frontend/src/app/dashboard/usePracticeData.ts:226-248 | the assignment loop with its round-robin counter |
| AdvisorScoreboard.EveryHouseholdAssigned | frontend/src/app/dashboard/usePracticeData.ts:226-248 | every household name is assigned and no other name is |
| AdvisorScoreboard.AssignedIsNotEmpty | frontend/src/app/dashboard/usePracticeData.ts:235-246 | no household is assigned to an empty name |
| ScoreboardFigures.AdvisorAssigned | frontend/src/app/dashboard/usePracticeData.ts:226-248 | whom a household name is assigned to: decided by the last household of the name, its owner if two different owners occur anywhere, or else the advisor in its description, or else the known advisor whose turn it is, one turn for each household before it that needed one |
| AdvisorScoreboard.FillBooks | frontend/src/app/dashboard/usePracticeData.ts:321-328 | the books hold exactly the households assigned to each advisor |
| AdvisorScoreboard.FindAdvisor | frontend/src/app/dashboard/usePracticeData.ts:332-333 | the scan for the first advisor holding a household equals the direct assignment lookup |
| AdvisorScoreboard.CreditTask | frontend/src/app/dashboard/usePracticeData.ts:330-343 | one task changes the tallies of one advisor |
| AdvisorScoreboard.TallyTasks | frontend/src/app/dashboard/usePracticeData.ts:329-343 | the tallies of every advisor are those of the tasks of its households |
| AdvisorScoreboard.BuildScoreboard | frontend/src/app/dashboard/usePracticeData.ts:320-343 | assignment, books and tallies together |
| AdvisorScoreboard.BooksPartition | frontend/src/app/dashboard/usePracticeData.ts:321-328 | on the finished board every assigned household is held by its advisor and no other, nothing else is held, and the sizes of the books add up to the households |
| AdvisorScoreboard.OpenTasksConserved | frontend/src/app/dashboard/usePracticeData.ts:329-343 | open-task counts over all advisors sum to the open tasks that carry a household name |
| ScoreboardFigures.TalliedCounts | frontend/src/app/dashboard/usePracticeData.ts:329-340 | the open, overdue and unsigned figures of an advisor are the numbers of such tasks credited to it, told from their fields |
| ScoreboardFigures.TalliedNames | frontend/src/app/dashboard/usePracticeData.ts:341-342 | so are the names reviewed and those met in the last ninety days |
| AdvisorScoreboard.ScoresInRange | frontend/src/app/dashboard/usePracticeData.ts:347-348 | every score lies in 0..100, and so does the compliance percentage of every advisor but "Unassigned" |
| ScoreboardFigures.ScoreOf | frontend/src/app/dashboard/usePracticeData.ts:347-348 | what a score weighs: 30 points for reviews, 30 for overdue tasks with six lost for each, 20 for unsigned envelopes with three lost for each, 20 for meetings |
| AdvisorScoreboard.PercentageIff | frontend/src/app/dashboard/usePracticeData.ts:331-347 | the compliance percentage of any advisor lies in 0..100 if and only if it has no households or 200 times the names reviewed for it are fewer than 201 times its households |
| AdvisorScoreboard.UnassignedCanExceed | frontend/src/app/dashboard/usePracticeData.ts:331-348 | from a list of one household, whose description names the advisor "Unassigned", and two reviews: the compliance percentage passes 100 |
| AumBlending.BlendAum | frontend/src/app/dashboard/usePracticeData.ts:670-691 | the coverage figures of the blend |
| AumBlending.CoverageIs | frontend/src/app/dashboard/usePracticeData.ts:670-691 | the figures of the blend: households with a positive balance and without, and the average for each one without |
| AumBlending.BlendLaw | frontend/src/app/dashboard/usePracticeData.ts:670-685 | for any balances: household shares plus orphaned balances equal the blended figure, and weights fall short of shares by the deficits |
| AumBlending.WeightsSumIff | frontend/src/app/dashboard/usePracticeData.ts:607-633 | weights sum to the blended figure if and only if no listed balance is negative and every positive one belongs to a listed household |
| AumBlending.AumWeightedHealth | frontend/src/app/dashboard/usePracticeData.ts:628-636 | the weighted-health loop |
| AumBlending.WeightedHealthIsAverage | frontend/src/app/dashboard/usePracticeData.ts:628-636 | with consistent balances the weighted score lies between the least and the greatest household score |
| AumBlending.PerAdvisorAum | frontend/src/app/dashboard/usePracticeData.ts:704-717 | real and estimated assets of each advisor add up to the shares of its household names, a repeated name standing for its last household and one without an id for nothing |
| AumBlending.AdvisorAumConserved | frontend/src/app/dashboard/usePracticeData.ts:704-720 | names repeated or not: assets over all advisors, shares of households superseded by a later one of the same name or without an id, and orphaned balances equal the blended figure; with distinct names and ids, without the orphans if and only if every positive balance is listed |
| AumBlending.RealIsUnestimated | frontend/src/app/dashboard/usePracticeData.ts:704-717 | the real part of an advisor's assets is what they would be if every estimate were nothing, so the same law holds of it |
| HomeStats.CollectActivity | frontend/src/lib/home-stats.ts:235-245 | the map of last activities |
| HomeStats.NoteTask | frontend/src/lib/home-stats.ts:239-245 | one task moves the last activity of its household forward or starts tracking it |
| HomeStats.LastActivityIsLatest | frontend/src/lib/home-stats.ts:235-245 | the last activity is the latest of the creation and the tasks, and is one of them |
| HomeStats.StalestHousehold | frontend/src/lib/home-stats.ts:235-250 | the two passes return the greatest number of whole days of silence over all tracked households, and a household that has it |
| HomeFigures.SilenceIsWholeDays | frontend/src/lib/home-stats.ts:246-250 | silence is counted in whole days of 86 400 000 milliseconds |
| HomeStats.PushItems | frontend/src/lib/home-stats.ts:348-410 | items of one urgency are appended in order |
| HomeStats.PushHouseholds | frontend/src/lib/home-stats.ts:412-437 | the oldest unreviewed households over the threshold are appended |
| HomeStats.BuildTriage | frontend/src/lib/home-stats.ts:347-442 | the list shown is the queue as built, cut at the cap: the sort moves nothing |
| HomeStats.QueueIsInOrder | frontend/src/lib/home-stats.ts:347-441 | the queue is built in urgency order |
| HomeStats.CapKeepsTheMostUrgent | frontend/src/lib/home-stats.ts:442 | no dropped item is more urgent than a kept one |
| HomeStats.CountsConserved | frontend/src/lib/home-stats.ts:164-175 | for any kind of task: counts over all advisors plus the unattributed tasks equal the firm count |
| HomeStats.HomeFiguresConserved | frontend/src/lib/home-stats.ts:164-188 | the same for the overdue, open, unsigned and meeting figures of the screen |
| HomeFigures.FiguresAre | frontend/src/lib/home-stats.ts:164-188 | each figure is the number of tasks with its property, told from their fields: for the firm, or for the households listed under an advisor |
| HomeFigures.QueueStarts | frontend/src/lib/home-stats.ts:347-410 | the queue starts with the first three high-priority overdue tasks, the first two long unsigned envelopes, the first three other overdue tasks and the first two due soon, in list order |
| HomeFigures.QueueEnds | frontend/src/lib/home-stats.ts:412-437 | it ends with at most two households never reviewed and clients for long enough, and with all of them when there are fewer than two |
| HomeFigures.TrackedIff | frontend/src/lib/home-stats.ts:235-245 | a household is tracked if and only if it is listed or a task dated after the epoch carries its id |
| Scrub.ScrubPII | frontend/src/lib/audit.ts:50-67 | the recursive loop that fills the result entry by entry |
| Scrub.NothingUnderListedKey | frontend/src/lib/audit.ts:54-55 | at any depth a listed key holds the redaction mark and nothing lies below it |
| Scrub.PersonalIsRedacted | frontend/src/lib/audit.ts:42-55 | the same with the ten keys written out |
| Scrub.NothingLong | frontend/src/lib/audit.ts:56-62 | at any depth no array and no string of more than 100 characters is left |
| Scrub.KeysAreKept | frontend/src/lib/audit.ts:53-65 | every key but `__proto__` stays, in order, and no other appears |
| Scrub.UnlistedValueIsShown | frontend/src/lib/audit.ts:56-64 | outside listed keys, short scalars are kept, long strings keep their first 80 characters followed by an ellipsis, and arrays become their item count |
| Scrub.ScrubIsIdempotent | frontend/src/lib/audit.ts:50-67 | scrubbing a scrubbed payload changes nothing |
| LineMatch.MatchAcrossLine | frontend/src/app/audit/AuditScreen.tsx:36-39 | a label pattern finds in a text what it finds in its first line, or else in the remaining lines |
| LineMatch.OwnLineReadsBackIff | frontend/src/app/audit/AuditScreen.tsx:36-38 | a value printed after its label is captured whole if and only if it is a single line |
| AuditTrail.FieldIsRead | frontend/src/lib/audit.ts:113-125 | a field is read from the values printed before it, or else from its own line, or else from what follows |
| AuditTrail.DescriptionRead | frontend/src/lib/audit.ts:113-125 | the same for the description of an entry, for each of the five fields parsed |
| AuditTrail.PayloadIsLast | frontend/src/lib/audit.ts:113-125 | the description ends with a line break and the payload, of which at most 2000 characters are printed |
| AuditSubject.ActionReadsBackIff | frontend/src/app/audit/AuditScreen.tsx:30-32 | the action is read back if and only if it is not empty, does not contain the separator and does not end with its first two characters |
| AuditSubject.ResultReadsBackIff | frontend/src/app/audit/AuditScreen.tsx:30-33 | the result is read back if and only if the action has no separator of its own, or the part it puts in the place of the result says the same |
| AuditSubject.SeparatorHidesError | frontend/src/app/audit/AuditScreen.tsx:30-33 | an error whose action is two parts joined by the separator is shown as a success |
| AuditRoundTrip.TextFieldReadsBackIff | frontend/src/lib/audit.ts:113-125 | request id, actor, detail and timestamp are read back if and only if: being present, no earlier value shows the label with another text and the value is a single line; being absent, no printed value shows the label |
| AuditRoundTrip.DurationReadsBackIff | frontend/src/lib/audit.ts:120 | a positive duration is read back unless an earlier value shows another; a zero, negative or absent one is parsed as what another value shows, and as none exactly when no other value shows one |
| AuditRoundTrip.CleanRecordReadsBack | frontend/src/app/audit/AuditScreen.tsx:27-54 | parsing a printed record gives back every field, when the action is whole, the values are single lines without labels, the duration is not zero, and the payload shows no label unless every optional field is present |
| Retry.SfFetch | frontend/src/lib/sf-client.ts:108-154 | at most 3 requests, with 500 ms and 1000 ms between them, and never past the loop: every answer but the last was a lost connection or had status 429 or 503, a last one before the third was not, and it makes the result |
| Retry.Query | frontend/src/lib/sf-client.ts:182-208 | for every service on which the loop ends: the result is the concatenation of the first pages, shorter than the cap plus one page; a later refusal ends it silently, a later exception loses everything |
| Retry.NeverStopsIff | frontend/src/lib/sf-client.ts:199-207 | the loop never ends if and only if every page arrives, none is the last and the records gathered never reach the cap |
| Retry.NonEmptyPagesStop | frontend/src/lib/sf-client.ts:199-207 | when no page that announces another is empty, at most 10 000 pages are requested |
| Retry.EmptyPagesNeverStop | frontend/src/lib/sf-client.ts:199-207 | a service of empty pages that announce another, on which the loop never ends |
| Retry.CompleteIff | frontend/src/lib/sf-client.ts:199-207 | when all pages arrive, everything is returned if and only if the pages before the last stay below the cap |
| ClientCalls.Client.GetCsrfToken | frontend/src/lib/salesforce.ts:49-70 | the cached token is used unless a refresh is forced; a failed fetch leaves the cache alone and gives the empty token |
| ClientCalls.Client.CallSf | frontend/src/lib/salesforce.ts:103-191 | the recursion on the attempt number, with the token of every POST, the waits and the cache it leaves |
| ClientCalls.Client.RetryOrGiveUp | frontend/src/lib/salesforce.ts:166-190 | a lost connection is retried after a wait until the attempts are used up |
| ClientCalls.Client.Again | frontend/src/lib/salesforce.ts:126-131 | the wait and the recursive call |
| ClientCalls.LastAnswerDecides | frontend/src/lib/salesforce.ts:103-191 | every POST but the last got an answer that is retried, and the reply is made of the last answer |
| ClientCalls.ReplyIs | frontend/src/lib/salesforce.ts:103-191 | which answers are followed by another POST, with the statuses written out, and what the caller is told of the last one |
| ClientCalls.FirstToken | frontend/src/lib/salesforce.ts:49-70 | the first POST carries the cached token, or else the one fetched, or none when that fails |
| ClientCalls.BackoffIs | frontend/src/lib/salesforce.ts:126-129 | the total wait is 600 ms doubled from attempt to attempt, with none for a refreshed token |
| ClientCalls.CallIsBounded | frontend/src/lib/salesforce.ts:103-191 | at most 3 POSTs, one forced refresh and 1800 ms of waiting, 1200 ms when it refreshed |
| ClientCalls.TokenAfterRejection | frontend/src/lib/salesforce.ts:148-153 | after a rejected token the next POST carries the new one, or the rejected one again when the refresh failed |
| ClientCalls.LateRejectionIsReturned | frontend/src/lib/salesforce.ts:148-153 | a token rejected after a retry is returned as a failure and never refreshed |
| ClientCalls.NullReplyIsRepeated | frontend/src/lib/salesforce.ts:134-155 | the reply `null` counts as a lost connection: the call is delivered three times |

## Left out

- Salesforce, cookies, encryption, the local audit database and browser storage: foreign calls, replaced by arbitrary answers.
- React screens, tours, navigation, wizard steps and form validation: no hard property.
- Metadata discovery: the bundle of metadata is an arbitrary value.
- The parts of a mapping that no query is printed from: service tier, status, pipeline, compliance, automation and field-level security findings, warnings, option captions.
- Regular expressions over labels other than the household and field words: an advisor found in a description is a field of the record.
- Non-string input of the sanitizer, which gives the empty string.
- Expiry of cookies, and the order in which a process forgets its rate-limiter map.
- The CSRF promise shared by concurrent callers: one caller at a time is modelled.
- HybridAgreement.HybridAgreesIff: for values without a bare quote. With one in the Type value the condition is that of `HybridAgreement.HybridCleanNameIff` and `HybridAgreement.CleanNameListedIff`; for one in the record type name, where the CRM allows only letters, digits and underscores, `QuoteBalance.PairBalance` states what a readable listing needs and no more.
- CorrectedAgreement.HybridCorrectedIff: for values without a bare quote. With one in the Type value, `CorrectedAgreement.HybridCorrectedCleanName` states what is listed for a clean record type name; which Type answers a value with bare quotes lists is not stated beyond `CorrectedAgreement.OtherAnswerIsListed`.
- Compliance.SurvivesIffInOneField: for keywords without a blank at an end; for one that ends in a blank `Compliance.SubjectAndBlankSurvives` is sufficient, and a blank at the start is not followed.
- AuditRoundTrip.CleanRecordReadsBack: sufficient conditions for the whole record; the exact conditions are stated field by field in the lemmas beside it.
- The JSON printer of the audit payload: its text is arbitrary; the household, priority and creation date of an audit task are not parsed back here.
- The household id an audit task needs: an entry without a valid one is not replicated to the CRM, and is not followed here.
- The body of a create request: what is followed is the index of its input, not the fields sent for it.
- Status, priority and due date of workflow tasks, and the two read-only summaries of a household's workflows.
- Evidence, detail and regulation texts of compliance checks, the keyword defaults and their overrides: one keyword map is a parameter.
- Revenue forecasts, risk lists, stuck counts and average days of pipeline stages, health breakdowns, operations staff, insights other than the stalest household, snooze options and sources of triage items.
- Floating-point rounding: quotients are exact, so a score that sits on a half is rounded up here.
