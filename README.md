# Query flattening in the experimental highlighter

This project models the query flattener of the search highlighter:
`QueryFlattener` in the Lucene module and its Elasticsearch subclass
`ElasticsearchQueryFlattener`. The flattener walks a Lucene query tree depth
first. It reports what there is to highlight as an ordered stream of calls on
a `Callback`:

- term events, each with a boost and a source override;
- automaton events for regexp, wildcard, prefix and fuzzy queries, each with a
  source hash;
- phrase markers (`startPhrase`, `startPhrasePosition`, `endPhrasePosition`,
  `endPhrase`);
- span markers (span-near, span-or, span-multi, and `endSpanTermQuery`).

The only state kept across the walk is `sentAutomata`, the set of keys of the
automata already sent. A query the flattener does not recognise is rewritten
against the index reader once, and the result is walked again. Its terms then
carry the original query as their source.

The files:

- `query_model.dfy` (module `QueryModel`): the query variants, terms, the
  automata (one constructor per Lucene construction, carrying its inputs),
  the deduplication keys, and `FuzzyQueryInfo` with its `equals` and
  `hashCode`.
- `events.dfy` (module `Events`): the callback calls as an `Event` datatype.
  `Balanced` says that every start marker has its end marker, properly
  nested.
- `flatten_spec.dfy` (module `FlattenSpec`): the walk as functions over a
  trace, that is the event log and the deduplication set. The result is an
  outcome, which carries the exception that aborted the walk, if any. Events
  sent before an exception stay sent.
- `flatten_props.dfy` (module `FlattenProperties`): what each handler emits,
  stated over the walk.
- `flatten_wellformed.dfy` (module `FlattenWellFormed`): two facts about
  every walk, proved by one induction over the whole walk:
  - The deduplication set grows by exactly one key per automaton event.
  - The markers are balanced whenever every multi-phrase query met has a term.
- `query_flattener.dfy` (module `Flattener`): the class `QueryFlattener`.
  - Fields: `sentAutomata` and `events`.
  - One method per Java handler, with the same branches and loops, with
    these exceptions:
    - The `TermQuery` handler is inlined in `FlattenAt`. The `PrefixQuery`
      handler is inlined in `FlattenLeaf`, as a direct call of
      `FlattenPrefixQuery` (Java's `flattenPrefixQuery`).
    - The five wrapper handlers (`ConstantScoreQuery`, `FilteredQuery`,
      `XFilteredQuery`, `FunctionScoreQuery`, `FiltersFunctionScoreQuery`)
      share `FlattenWrapped`.
    - The two `rewriteQuery` overloads are one `RewriteQuery`.
    - Some loops are moved into helper methods of their own, which have no
      Java counterpart: `FlattenLeaf` (the tail of the instanceof chain),
      `SendTerms`, `SendAllTerms`, `SendPositions` and `SendPosition` (the
      term and position loops of the multi-phrase and multi-phrase-prefix
      handlers), `FlattenSpanClauses` (the clause loop of span-near and
      span-or) and `FlattenPrefixes` (the last-position loop of
      multi-phrase-prefix).
  - Each method is proved to leave the object in the state that the
    `FlattenSpec` function for that handler gives.

The Elasticsearch subclass is the same class, constructed with the
`Elasticsearch` flavor. Its `flattenUnknown` override is the flavor test in
`FlattenUnknown`.

Two behaviours are modelled as the code does them, although the flattener's
contract reads otherwise:

- **Fuzzy query with `maxEdits == 0`.** It is meant to degrade to a plain
  term. The code emits the term but does not return. It then also sends an
  edit-distance-0 automaton, or emits the term a second time when the prefix
  covers the whole term (`FuzzyZeroEditsFallsThrough`, `FuzzyShortCircuit`).
- **Common-terms query, removal enabled, rewrite not boolean.** It is meant to
  fall back to flattening the whole rewritten query. The code does flatten
  it, but then casts it to `BooleanQuery`. The walk therefore ends in a
  `ClassCastException` after those events (`CommonTermsNonBooleanFailsAfterEvents`).

## Model

| member | source | states |
|---|---|---|
| QueryModel.FuzzyQueryInfoEquals | experimental-highlighter-lucene/src/main/java/org/wikimedia/highlighter/experimental/lucene/QueryFlattener.java:512-533 | two fuzzy keys are equal exactly when term, maxEdits, transpositions and prefixLength are all equal |
| QueryModel.FuzzyQueryInfoHash | experimental-highlighter-lucene/src/main/java/org/wikimedia/highlighter/experimental/lucene/QueryFlattener.java:501-510 | the 31-multiplier hash with Java int wrap-around; the result is a 32-bit value |
| QueryModel.Int32 | experimental-highlighter-lucene/src/main/java/org/wikimedia/highlighter/experimental/lucene/QueryFlattener.java:505-508 | Java int arithmetic: the result lies in the 32-bit range and is congruent to the exact value modulo 2^32 |
| QueryModel.EqualKeysHashAlike | experimental-highlighter-lucene/src/main/java/org/wikimedia/highlighter/experimental/lucene/QueryFlattener.java:501-533 | hashCode is consistent with equals: keys that equals identifies have the same hashCode, which holds because equals is field equality (`FuzzyQueryInfoEquals`) |
| QueryModel.FuzzyQueryInfoHashIsPolynomial | experimental-highlighter-lucene/src/main/java/org/wikimedia/highlighter/experimental/lucene/QueryFlattener.java:501-510 | wrapping after each step gives Java's int value of the exact polynomial 31^4 + 31^3 maxEdits + 31^2 prefixLength + 31 hash(term) + (1231 or 1237) |
| FlattenSpec.RewriteQuery | experimental-highlighter-lucene/src/main/java/org/wikimedia/highlighter/experimental/lucene/QueryFlattener.java:462-474 | a multi-term query is never answered as unchanged, because it is a clone that is rewritten; the rewrite fails exactly when reading the (bounded) query fails |
| FlattenSpec.FlattenSpan | experimental-highlighter-lucene/src/main/java/org/wikimedia/highlighter/experimental/lucene/QueryFlattener.java:175-200 | handles a query exactly when it is one of the six known span classes; otherwise it declines and changes nothing |
| FlattenSpec.FlattenUnknown | experimental-highlighter-elasticsearch-plugin/src/main/java/org/wikimedia/highlighter/experimental/elasticsearch/ElasticsearchQueryFlattener.java:27-49 | handles a query exactly when the flattener is the Elasticsearch one and the query is one of its four classes; otherwise it declines and changes nothing |
| FlattenSpec.Flatten | experimental-highlighter-lucene/src/main/java/org/wikimedia/highlighter/experimental/lucene/QueryFlattener.java:135-173 | the walk only appends events and adds keys |
| FlattenProperties.BooleanQueryWalksRequiredClauses | experimental-highlighter-lucene/src/main/java/org/wikimedia/highlighter/experimental/lucene/QueryFlattener.java:234-242 | a boolean query walks exactly its non-MUST_NOT clauses, in order, at pathBoost * boost |
| FlattenProperties.ClausesSkipProhibited | experimental-highlighter-lucene/src/main/java/org/wikimedia/highlighter/experimental/lucene/QueryFlattener.java:236-241 | the clause loop is the same as walking the list of required clauses |
| FlattenProperties.ProhibitedClauseContributesNothing | experimental-highlighter-lucene/src/main/java/org/wikimedia/highlighter/experimental/lucene/QueryFlattener.java:237 | inserting a MUST_NOT clause anywhere leaves the outcome unchanged |
| FlattenProperties.DisjunctionMaxWalksDisjuncts | experimental-highlighter-lucene/src/main/java/org/wikimedia/highlighter/experimental/lucene/QueryFlattener.java:244-250 | a dismax query walks each disjunct in order at pathBoost * boost |
| FlattenProperties.WrapperWalksInner | experimental-highlighter-lucene/src/main/java/org/wikimedia/highlighter/experimental/lucene/QueryFlattener.java:252-268 | constant-score and filtered queries emit nothing without an inner query, else walk it at pathBoost * boost with the same source override |
| FlattenProperties.ElasticsearchWrapperWalksInner | experimental-highlighter-elasticsearch-plugin/src/main/java/org/wikimedia/highlighter/experimental/elasticsearch/ElasticsearchQueryFlattener.java:100-112 | XFiltered, function-score and filters-function-score queries emit nothing without a subquery, else walk it at pathBoost * boost with the same source override |
| FlattenProperties.ExtensionDispatch | experimental-highlighter-lucene/src/main/java/org/wikimedia/highlighter/experimental/lucene/QueryFlattener.java:165-172 | the four Elasticsearch classes go to the hook in the subclass and to the rewrite fallback in the base class |
| FlattenProperties.ExtensionHandlesExactlyFour | experimental-highlighter-elasticsearch-plugin/src/main/java/org/wikimedia/highlighter/experimental/elasticsearch/ElasticsearchQueryFlattener.java:27-49 | the hook answers true exactly for the four classes of the subclass; every query that nothing recognises goes to the rewrite fallback |
| FlattenProperties.PhraseWithoutTermsSendsNothing | experimental-highlighter-lucene/src/main/java/org/wikimedia/highlighter/experimental/lucene/QueryFlattener.java:216-218 | a phrase with no terms emits nothing |
| FlattenProperties.PhraseAsTermsSendsTerms | experimental-highlighter-lucene/src/main/java/org/wikimedia/highlighter/experimental/lucene/QueryFlattener.java:219-222 | with phraseAsTerms, exactly n term events in order, at the phrase's full boost, and no markers |
| FlattenProperties.PhraseShape | experimental-highlighter-lucene/src/main/java/org/wikimedia/highlighter/experimental/lucene/QueryFlattener.java:223-231 | startPhrase(n, boost), then n triples of startPhrasePosition(1), the term at boost 0 and endPhrasePosition, then endPhrase with the first term's field: 3n+2 events, index by index |
| FlattenProperties.SingleTermPositionsAt | experimental-highlighter-lucene/src/main/java/org/wikimedia/highlighter/experimental/lucene/QueryFlattener.java:225-229 | the position triples have length 3n and hold the i-th term at index 3i+1 |
| FlattenProperties.MultiPhraseShape | experimental-highlighter-lucene/src/main/java/org/wikimedia/highlighter/experimental/lucene/QueryFlattener.java:283-299 | startPhrase(#positions, boost) always, then each position; endPhrase only when some term was met, carrying the field of the last term met |
| FlattenProperties.LastFieldIsLastTerm | experimental-highlighter-lucene/src/main/java/org/wikimedia/highlighter/experimental/lucene/QueryFlattener.java:285-297 | the remembered field is absent exactly when every position is empty; otherwise it is the last term of the last non-empty position |
| FlattenProperties.PhrasePositionsFacts | experimental-highlighter-lucene/src/main/java/org/wikimedia/highlighter/experimental/lucene/QueryFlattener.java:286-293 | the positions are balanced, one position pair per term array, no phrase marker, every term at boost 0 |
| FlattenProperties.MultiPhraseAsTermsSendsTerms | experimental-highlighter-lucene/src/main/java/org/wikimedia/highlighter/experimental/lucene/QueryFlattener.java:277-282 | with phraseAsTerms, every term of every position, in order, at the full boost |
| FlattenProperties.AllTermEventsAreTermEvents | experimental-highlighter-lucene/src/main/java/org/wikimedia/highlighter/experimental/lucene/QueryFlattener.java:278-282 | the nested term loops emit the terms of the concatenated arrays |
| FlattenProperties.SpanNearOrBrackets | experimental-highlighter-lucene/src/main/java/org/wikimedia/highlighter/experimental/lucene/QueryFlattener.java:315-349 | span-near and span-or emit their start event, then their clauses in order at pathBoost * boost, then their end event unless an exception propagates |
| FlattenProperties.EmptySpanNearOrIsBalanced | experimental-highlighter-lucene/src/main/java/org/wikimedia/highlighter/experimental/lucene/QueryFlattener.java:318-322 | with no clauses, exactly the start and end events, which are balanced |
| FlattenProperties.UnknownSpanClauseDropped | experimental-highlighter-lucene/src/main/java/org/wikimedia/highlighter/experimental/lucene/QueryFlattener.java:319-321 | a clause of an unrecognised span class is dropped silently, because what flattenSpan returns is ignored |
| FlattenProperties.SpanNotIgnoresExclude | experimental-highlighter-lucene/src/main/java/org/wikimedia/highlighter/experimental/lucene/QueryFlattener.java:335-339 | span-not walks only its include side; changing the exclude side changes nothing |
| FlattenProperties.SpanPositionCheckUnwraps | experimental-highlighter-lucene/src/main/java/org/wikimedia/highlighter/experimental/lucene/QueryFlattener.java:309-313 | span-position-check walks its match query at pathBoost * boost, with no marker of its own |
| FlattenProperties.SpanTermSendsTermThenEnd | experimental-highlighter-lucene/src/main/java/org/wikimedia/highlighter/experimental/lucene/QueryFlattener.java:302-307 | exactly two events: the term at boost 0, then endSpanTermQuery whose id refers to that term event |
| FlattenProperties.SendAutomatonOnce | experimental-highlighter-lucene/src/main/java/org/wikimedia/highlighter/experimental/lucene/QueryFlattener.java:355-359 | the key is always in the set afterwards and the set grows by that key only; an automaton is emitted exactly when the key was new, with the override's hash if there is one, else the key's |
| FlattenProperties.SendAutomatonIdempotent | experimental-highlighter-lucene/src/main/java/org/wikimedia/highlighter/experimental/lucene/QueryFlattener.java:381-383 | sending under the same key a second time changes nothing, whatever the automaton, boost or source |
| FlattenProperties.RegexpDeduplicated | experimental-highlighter-lucene/src/main/java/org/wikimedia/highlighter/experimental/lucene/QueryFlattener.java:351-360 | after a regexp query its key is sent, and walking it again changes nothing |
| FlattenProperties.WildcardAndPrefixShareKeys | experimental-highlighter-lucene/src/main/java/org/wikimedia/highlighter/experimental/lucene/QueryFlattener.java:362-388 | wildcard and prefix queries share the byte-key space: after either one, the other with the same text sends nothing |
| FlattenProperties.FuzzyAutomatonShape | experimental-highlighter-lucene/src/main/java/org/wikimedia/highlighter/experimental/lucene/QueryFlattener.java:407-417 | the edit distance is min(maxEdits, 2) over the part after the prefix; a prefix acceptor is concatenated in front exactly when prefixLength > 0 |
| FlattenProperties.FuzzyShortCircuit | experimental-highlighter-lucene/src/main/java/org/wikimedia/highlighter/experimental/lucene/QueryFlattener.java:396-400 | when the prefix covers the term: only term events, two of them when maxEdits is 0; no automaton and no key |
| FlattenProperties.FuzzyZeroEditsFallsThrough | experimental-highlighter-lucene/src/main/java/org/wikimedia/highlighter/experimental/lucene/QueryFlattener.java:393-395 | maxEdits 0 emits a term and does not return: the fuzzy key is added and, when it is new, an automaton follows the term |
| FlattenProperties.FuzzySendsAutomaton | experimental-highlighter-lucene/src/main/java/org/wikimedia/highlighter/experimental/lucene/QueryFlattener.java:402-419 | otherwise, the key joins the set, and exactly one automaton event carrying the Levenshtein automaton is appended, with the override's hash or the key's, exactly when the key was new; nothing is appended otherwise |
| FlattenProperties.RewriteUnchangedSendsNothing | experimental-highlighter-lucene/src/main/java/org/wikimedia/highlighter/experimental/lucene/QueryFlattener.java:165-172 | an unrecognised query that rewrites to itself emits nothing; a read failure becomes WrappedExceptionFromLucene with no events |
| FlattenProperties.RewrittenIsFlattenedWithSource | experimental-highlighter-lucene/src/main/java/org/wikimedia/highlighter/experimental/lucene/QueryFlattener.java:166-171 | a different rewrite result is walked at the same boost, with the original query as its source override |
| FlattenProperties.MultiTermQueryRewrittenBounded | experimental-highlighter-lucene/src/main/java/org/wikimedia/highlighter/experimental/lucene/QueryFlattener.java:462-467 | the reader sees a clone bounded to maxMultiTermQueryTerms top terms; if the clone comes back unchanged, the clone is walked |
| FlattenProperties.CommonTermsSplitWalksLowFrequency | experimental-highlighter-lucene/src/main/java/org/wikimedia/highlighter/experimental/lucene/QueryFlattener.java:453-459 | a rewrite shaped {SHOULD boolean, MUST boolean} walks only the required clauses of the MUST half |
| FlattenProperties.CommonTermsOtherBooleanWalkedWhole | experimental-highlighter-lucene/src/main/java/org/wikimedia/highlighter/experimental/lucene/QueryFlattener.java:425-457 | any other boolean rewrite, or removal disabled, walks the whole rewritten query |
| FlattenProperties.CommonTermsNonBooleanFailsAfterEvents | experimental-highlighter-lucene/src/main/java/org/wikimedia/highlighter/experimental/lucene/QueryFlattener.java:437-441 | a rewrite that is not boolean is walked, then the cast fails: the walk's events stay and the outcome is a failure |
| FlattenProperties.EmptyMultiPhrasePrefixSendsNothing | experimental-highlighter-elasticsearch-plugin/src/main/java/org/wikimedia/highlighter/experimental/elasticsearch/ElasticsearchQueryFlattener.java:65-69 | a multi-phrase-prefix query with no positions emits nothing, not even startPhrase |
| FlattenProperties.MultiPhrasePrefixAsTerms | experimental-highlighter-elasticsearch-plugin/src/main/java/org/wikimedia/highlighter/experimental/elasticsearch/ElasticsearchQueryFlattener.java:71-80 | with phraseAsTerms: the earlier positions as term events at full boost, then only prefix automata at full boost for the last position |
| FlattenProperties.PrefixesAtMostOnePerTerm | experimental-highlighter-elasticsearch-plugin/src/main/java/org/wikimedia/highlighter/experimental/elasticsearch/ElasticsearchQueryFlattener.java:78-80 | at most one automaton per last-position term; afterwards every term's prefix key is sent; nothing changes when all were sent before |
| FlattenProperties.MultiPhrasePrefixPhraseShape | experimental-highlighter-elasticsearch-plugin/src/main/java/org/wikimedia/highlighter/experimental/elasticsearch/ElasticsearchQueryFlattener.java:82-96 | phrase mode: startPhrase(size, boost), the earlier positions, startPhrasePosition(last length), then exactly the prefix automata flattenPrefixQuery sends for the last position's terms at boost 0 (at most one per term), endPhrasePosition, endPhrase with the query's field; afterwards every last-position term's key is sent |
| FlattenProperties.MultiPhrasePrefixPhraseMarkers | experimental-highlighter-elasticsearch-plugin/src/main/java/org/wikimedia/highlighter/experimental/elasticsearch/ElasticsearchQueryFlattener.java:82-96 | phrase mode: exactly one startPhrase and one endPhrase, exactly size position pairs, balanced, and every term and automaton at boost 0 |
| FlattenProperties.LastPositionAnnouncesAllTerms | experimental-highlighter-elasticsearch-plugin/src/main/java/org/wikimedia/highlighter/experimental/elasticsearch/ElasticsearchQueryFlattener.java:91-95 | the last position announces all its terms even when deduplication suppresses every one of its automata |
| FlattenWellFormed.FlattenIsWellFormed | experimental-highlighter-lucene/src/main/java/org/wikimedia/highlighter/experimental/lucene/QueryFlattener.java:135-173 | every walk only appends; the key set grows by exactly one key per automaton event; a walk that ends normally leaves its markers balanced whenever each multi-phrase query met has a term |
| FlattenWellFormed.WalkIsWellFormed | experimental-highlighter-lucene/src/main/java/org/wikimedia/highlighter/experimental/lucene/QueryFlattener.java:121-123 | from a fresh flattener, for every query, the keys sent number the automaton events; the events of a normal end are balanced when every multi-phrase query met has a term |
| FlattenWellFormed.EmptyMultiPhraseLeavesPhraseOpen | experimental-highlighter-lucene/src/main/java/org/wikimedia/highlighter/experimental/lucene/QueryFlattener.java:284-298 | a multi-phrase query with no terms emits startPhrase and never endPhrase, so the balance needs its hypothesis |
| Flattener.QueryFlattener.constructor | experimental-highlighter-lucene/src/main/java/org/wikimedia/highlighter/experimental/lucene/QueryFlattener.java:59-63 | the three settings are stored; nothing has been sent |
| Flattener.QueryFlattener.Default | experimental-highlighter-lucene/src/main/java/org/wikimedia/highlighter/experimental/lucene/QueryFlattener.java:55-57 | 1000 terms, phrases kept, high-frequency terms removed; nothing sent |
| Flattener.QueryFlattener.Add | experimental-highlighter-lucene/src/main/java/org/wikimedia/highlighter/experimental/lucene/QueryFlattener.java:47 | the set's add: true exactly when the key was new; the key is in the set afterwards |
| Flattener.QueryFlattener.Flatten | experimental-highlighter-lucene/src/main/java/org/wikimedia/highlighter/experimental/lucene/QueryFlattener.java:121-123 | the walk at boost 1 with no override; the new state is the walk's; the set grows by one key per automaton event; the new events are balanced under the phrase hypothesis |
| Flattener.QueryFlattener.FlattenAt | experimental-highlighter-lucene/src/main/java/org/wikimedia/highlighter/experimental/lucene/QueryFlattener.java:135-165 | the instanceof chain leaves the object in the state that Flatten gives |
| Flattener.QueryFlattener.FlattenLeaf | experimental-highlighter-lucene/src/main/java/org/wikimedia/highlighter/experimental/lucene/QueryFlattener.java:155-165 | the rest of the chain (fuzzy to common terms, then the hook) agrees with Flatten |
| Flattener.QueryFlattener.RewriteAndFlatten | experimental-highlighter-lucene/src/main/java/org/wikimedia/highlighter/experimental/lucene/QueryFlattener.java:165-172 | the rewrite fallback agrees with RewriteAndFlatten |
| Flattener.QueryFlattener.FlattenSpan | experimental-highlighter-lucene/src/main/java/org/wikimedia/highlighter/experimental/lucene/QueryFlattener.java:175-200 | the answer and the new state agree with FlattenSpan |
| Flattener.QueryFlattener.FlattenUnknown | experimental-highlighter-elasticsearch-plugin/src/main/java/org/wikimedia/highlighter/experimental/elasticsearch/ElasticsearchQueryFlattener.java:27-49 | the answer and the new state agree with FlattenUnknown (the base class's hook at QueryFlattener.java:202-205 is the Lucene flavor) |
| Flattener.QueryFlattener.FlattenBoolean | experimental-highlighter-lucene/src/main/java/org/wikimedia/highlighter/experimental/lucene/QueryFlattener.java:234-242 | the clause loop leaves the state of the clause walk, stopping at the first exception |
| Flattener.QueryFlattener.FlattenDisjunctionMax | experimental-highlighter-lucene/src/main/java/org/wikimedia/highlighter/experimental/lucene/QueryFlattener.java:244-250 | the disjunct loop leaves the state of walking each disjunct in turn |
| Flattener.QueryFlattener.FlattenWrapped | experimental-highlighter-lucene/src/main/java/org/wikimedia/highlighter/experimental/lucene/QueryFlattener.java:252-268 | nothing for a null inner query, else the inner walk (also ElasticsearchQueryFlattener.java:51-58 and 100-112) |
| Flattener.QueryFlattener.FlattenPhrase | experimental-highlighter-lucene/src/main/java/org/wikimedia/highlighter/experimental/lucene/QueryFlattener.java:212-232 | the loops emit exactly the phrase events of FlattenPhraseQuery |
| Flattener.QueryFlattener.FlattenMultiPhrase | experimental-highlighter-lucene/src/main/java/org/wikimedia/highlighter/experimental/lucene/QueryFlattener.java:270-300 | the loops emit exactly the events of FlattenMultiPhraseQuery |
| Flattener.QueryFlattener.SendPositions | experimental-highlighter-lucene/src/main/java/org/wikimedia/highlighter/experimental/lucene/QueryFlattener.java:285-293 | the positions in order, and the field of the last term met |
| Flattener.QueryFlattener.SendPosition | experimental-highlighter-lucene/src/main/java/org/wikimedia/highlighter/experimental/lucene/QueryFlattener.java:287-292 | one position: its term count, its terms at boost 0, its end, and its last term's field |
| Flattener.QueryFlattener.SendAllTerms | experimental-highlighter-lucene/src/main/java/org/wikimedia/highlighter/experimental/lucene/QueryFlattener.java:278-282 | every term of every array in order |
| Flattener.QueryFlattener.SendTerms | experimental-highlighter-lucene/src/main/java/org/wikimedia/highlighter/experimental/lucene/QueryFlattener.java:220-222 | each term in order at one boost; the set is unchanged |
| Flattener.QueryFlattener.SendTerm | experimental-highlighter-lucene/src/main/java/org/wikimedia/highlighter/experimental/lucene/QueryFlattener.java:75 | one term event; the id returned indexes it |
| Flattener.QueryFlattener.FlattenMultiPhrasePrefix | experimental-highlighter-elasticsearch-plugin/src/main/java/org/wikimedia/highlighter/experimental/elasticsearch/ElasticsearchQueryFlattener.java:60-98 | the loops emit exactly the events, and add exactly the keys, of FlattenMultiPhrasePrefixQuery |
| Flattener.QueryFlattener.FlattenPrefixes | experimental-highlighter-elasticsearch-plugin/src/main/java/org/wikimedia/highlighter/experimental/elasticsearch/ElasticsearchQueryFlattener.java:92-94 | flattenPrefixQuery on each term in turn |
| Flattener.QueryFlattener.FlattenSpanTerm | experimental-highlighter-lucene/src/main/java/org/wikimedia/highlighter/experimental/lucene/QueryFlattener.java:302-307 | agrees with the span-term case of FlattenSpan |
| Flattener.QueryFlattener.FlattenSpanPositionCheck | experimental-highlighter-lucene/src/main/java/org/wikimedia/highlighter/experimental/lucene/QueryFlattener.java:309-313 | agrees with the position-check case of FlattenSpan |
| Flattener.QueryFlattener.FlattenSpanNear | experimental-highlighter-lucene/src/main/java/org/wikimedia/highlighter/experimental/lucene/QueryFlattener.java:315-323 | agrees with the span-near case of FlattenSpan |
| Flattener.QueryFlattener.FlattenSpanMulti | experimental-highlighter-lucene/src/main/java/org/wikimedia/highlighter/experimental/lucene/QueryFlattener.java:325-333 | agrees with the span-multi case of FlattenSpan |
| Flattener.QueryFlattener.FlattenSpanNot | experimental-highlighter-lucene/src/main/java/org/wikimedia/highlighter/experimental/lucene/QueryFlattener.java:335-339 | agrees with the span-not case of FlattenSpan |
| Flattener.QueryFlattener.FlattenSpanOr | experimental-highlighter-lucene/src/main/java/org/wikimedia/highlighter/experimental/lucene/QueryFlattener.java:341-349 | agrees with the span-or case of FlattenSpan |
| Flattener.QueryFlattener.FlattenSpanClauses | experimental-highlighter-lucene/src/main/java/org/wikimedia/highlighter/experimental/lucene/QueryFlattener.java:319-321 | the clause loop of span-near and span-or, stopping at the first exception |
| Flattener.QueryFlattener.FlattenRegexp | experimental-highlighter-lucene/src/main/java/org/wikimedia/highlighter/experimental/lucene/QueryFlattener.java:351-360 | agrees with FlattenRegexpQuery |
| Flattener.QueryFlattener.FlattenWildcard | experimental-highlighter-lucene/src/main/java/org/wikimedia/highlighter/experimental/lucene/QueryFlattener.java:362-370 | agrees with FlattenWildcardQuery |
| Flattener.QueryFlattener.FlattenPrefixQuery | experimental-highlighter-lucene/src/main/java/org/wikimedia/highlighter/experimental/lucene/QueryFlattener.java:378-388 | agrees with FlattenPrefixQuery |
| Flattener.QueryFlattener.FlattenFuzzy | experimental-highlighter-lucene/src/main/java/org/wikimedia/highlighter/experimental/lucene/QueryFlattener.java:390-420 | the imperative construction agrees with FlattenFuzzyQuery and FuzzyAutomaton |
| Flattener.QueryFlattener.FlattenCommonTerms | experimental-highlighter-lucene/src/main/java/org/wikimedia/highlighter/experimental/lucene/QueryFlattener.java:422-460 | the shape tests, taken one by one, agree with FlattenCommonTermsQuery |
| Flattener.QueryFlattener.RewriteQuery | experimental-highlighter-lucene/src/main/java/org/wikimedia/highlighter/experimental/lucene/QueryFlattener.java:462-474 | agrees with RewriteQuery; a multi-term query never comes back unchanged |
| Flattener.QueryFlattener.RewritePreparedQuery | experimental-highlighter-lucene/src/main/java/org/wikimedia/highlighter/experimental/lucene/QueryFlattener.java:479-485 | unchanged, rewritten or failed exactly as the reader answers; an IOException is wrapped |

## Left out

- Lucene's automaton construction (`Automata.makeString`, `makeAnyString`, `Operations.concatenate`, `LevenshteinAutomata.toAutomaton`, `getAutomaton()`): these are library code. Each one is a constructor of `Automaton` that carries its inputs.
- `query.rewrite(reader)`, `clone()` and `setRewriteMethod` do index I/O inside Lucene. The reader is a function from a query to "unchanged", "rewritten to q" or "IOException". The clone is the query with its rewrite method replaced.
- Reference identity is approximated. `newRewritten != query` is read as "the reader did not answer unchanged". A cloned multi-term query counts as a new object.
- Boosts are reals. `Times` is exact multiplication, without float rounding.
- The `hashCode` of queries, byte strings and strings are parameters of the flattener (`Hashes`). `FuzzyQueryInfo.hashCode` is written out on top of them. Its null-term branch is left out, because the term always comes from `utf8ToString`.
- UTF-8 decoding and UTF-16 lengths are left out. Term text is a character string, and `term.length()` and `substring` act on characters.
- The `Callback` is an event log and is not called. The int that `flattened(term, …)` returns is the index of the term event in the log.
- Rewriting is bounded by a fuel parameter: the depth to which rewrites may still nest. A rewrite or a common-terms query walks its result with one less; sibling clauses share the same fuel, so any number of rewritten siblings are walked at fuel 1. When it runs out, the walk ends in `RewriteDepthExhausted`. The Java code has no such bound: a query that keeps rewriting to new objects recurses until the stack overflows. One such case is a multi-term clone that the reader returns unchanged.
- FlattenWellFormed.FlattenIsWellFormed: balance is proved only for walks in which every multi-phrase query has at least one term. This includes the queries the reader rewrites to. Without a term, the code emits `startPhrase` and no `endPhrase` (`EmptyMultiPhraseLeavesPhraseOpen`). MUST_NOT clauses, which are never walked, are exempt. The hypothesis is still required when `phraseAsTerms` is set, although no phrase marker is emitted then, so it is stronger than that mode needs.
- Flattener.QueryFlattener.FlattenSpanTerm: its contract is stated at fuel 0. A span term does not depend on the fuel.
- Java's runtime exceptions other than the cast, such as a null query or a stack overflow, are not modelled.
- Filters are not walked by the filtered and constant-score queries, as in the code.
