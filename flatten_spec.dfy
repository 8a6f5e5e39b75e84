/**
 * The flattening walk as functions: what QueryFlattener and its Elasticsearch
 * subclass do to the callback's event log and to the deduplication set, for
 * every query variant. The class in query_flattener.dfy is proved against these.
 *
 * A walk step takes the trace so far (the events already sent to the callback
 * and the keys already in sentAutomata) and gives the trace afterwards, plus
 * the exception that aborted the walk, if one did; the events sent before an
 * exception stay sent.
 */
module FlattenSpec {
  import opened QueryModel
  import opened Events

  /** Which class does the flattening: the Lucene base class or the Elasticsearch subclass. */
  datatype Flavor = Lucene | Elasticsearch

  datatype Config = Config(
    maxMultiTermQueryTerms: int,
    phraseAsTerms: bool,
    removeHighFrequencyTermsFromCommonTerms: bool,
    flavor: Flavor)

  /** The no-argument constructors: 1000 terms, phrases kept, high-frequency terms removed. */
  function DefaultConfig(flavor: Flavor): Config
  {
    Config(1000, false, true, flavor)
  }

  /** What `query.rewrite(reader)` returns: the same object, a different object, or an IOException. */
  datatype RewriteOutcome = Unchanged | Rewritten(query: Query) | ReadFailure

  /** Everything fixed for one walk: the configuration, the runtime's hash codes, the index reader. */
  datatype Env = Env(config: Config, hashes: Hashes, reader: Query -> RewriteOutcome)

  /** The exceptions that escape a flatten call. */
  datatype Failure =
    | WrappedExceptionFromLucene  // an IOException from the rewrite, wrapped
    | ClassCastException          // a common-terms query that did not rewrite to a boolean query
    | RewriteDepthExhausted       // the model's bound on walking rewritten queries was reached

  datatype Trace = Trace(log: seq<Event>, sent: set<Key>)

  datatype Outcome = Outcome(trace: Trace, failure: Option<Failure>)

  /** The result of a handler that may decline a query (flattenSpan, flattenUnknown). */
  datatype Handled = Handled(handled: bool, outcome: Outcome)

  /** LevenshteinAutomata.MAXIMUM_SUPPORTED_DISTANCE */
  const MAXIMUM_SUPPORTED_DISTANCE: nat := 2

  /** The product of two boosts: Java's float multiplication, without its rounding. */
  function Times(a: real, b: real): real
  {
    a * b
  }

  /** u is t with events appended and keys added. */
  predicate Extends(t: Trace, u: Trace)
  {
    t.log <= u.log && t.sent <= u.sent
  }

  function Append(t: Trace, es: seq<Event>): Trace
  {
    Trace(t.log + es, t.sent)
  }

  function Done(t: Trace): Outcome
  {
    Outcome(t, None)
  }

  function Fail(t: Trace, f: Failure): Outcome
  {
    Outcome(t, Some(f))
  }

  /** Appends e unless an exception is already propagating. */
  function Close(o: Outcome, e: Event): Outcome
  {
    if o.failure.Some? then o else Done(Append(o.trace, [e]))
  }

  // ----- Rewriting -----

  datatype Rewrite = SameQuery | NewQuery(query: Query) | RewriteFailed

  /** rewritePreparedQuery: ask the reader; an IOException becomes a failure. */
  function RewritePreparedQuery(env: Env, q: Query): Rewrite
  {
    match env.reader(q)
    case Unchanged => SameQuery
    case Rewritten(r) => NewQuery(r)
    case ReadFailure => RewriteFailed
  }

  /**
   * rewriteQuery: a multi-term query is cloned with a top-terms scoring rewrite
   * bounded by maxMultiTermQueryTerms before it is rewritten. The clone is a
   * new object, so what the reader makes of it is never the original query.
   */
  function RewriteQuery(env: Env, q: Query): (r: Rewrite)
    ensures q.OtherMultiTermQuery? ==> !r.SameQuery?
    ensures r.RewriteFailed? <==> env.reader(BoundedForRewrite(env.config, q)).ReadFailure?
  {
    if q.OtherMultiTermQuery? then
      var clone := BoundedForRewrite(env.config, q);
      match RewritePreparedQuery(env, clone)
      case SameQuery => NewQuery(clone)
      case other => other
    else
      RewritePreparedQuery(env, q)
  }

  /** The query handed to the reader: multi-term queries get the bounded rewrite method. */
  function BoundedForRewrite(config: Config, q: Query): Query
  {
    if q.OtherMultiTermQuery? then q.(rewriteMethod := TopTermsScoringBooleanRewrite(config.maxMultiTermQueryTerms))
    else q
  }

  // ----- Dispatch -----

  /**
   * flatten(query, pathBoost, sourceOverride, reader, callback). `fuel` bounds
   * how deeply rewrites may still nest below this query: a rewrite, or a
   * common-terms query, walks its result with one less, while siblings
   * share the same fuel.
   */
  function Flatten(env: Env, q: Query, pathBoost: real, sourceOverride: Option<Query>, t: Trace, fuel: nat): (r: Outcome)
    ensures Extends(t, r.trace)
    decreases fuel, Size(q), 2
  {
    if q.TermQuery? then
      Done(Append(t, [TermEvent(q.term.text, Times(pathBoost, q.boost), sourceOverride)]))
    else if q.PhraseQuery? then
      Done(FlattenPhraseQuery(env, q, pathBoost, sourceOverride, t))
    else if q.BooleanQuery? then
      FlattenBooleanQuery(env, q, pathBoost, sourceOverride, t, fuel)
    else if q.DisjunctionMaxQuery? then
      FlattenEach(env, q.disjuncts, Times(pathBoost, q.boost), sourceOverride, t, fuel)
    else if q.ConstantScoreQuery? || q.FilteredQuery? then
      FlattenWrapped(env, q.inner, Times(pathBoost, q.boost), sourceOverride, t, fuel)
    else if q.MultiPhraseQuery? then
      Done(FlattenMultiPhraseQuery(env, q, pathBoost, sourceOverride, t))
    else
      var span := if q.IsSpan() then FlattenSpan(env, q, pathBoost, sourceOverride, t, fuel) else Handled(false, Done(t));
      if span.handled then span.outcome
      else if q.FuzzyQuery? then
        Done(FlattenFuzzyQuery(env, q, pathBoost, sourceOverride, t))
      else if q.RegexpQuery? then
        Done(FlattenRegexpQuery(env, q, pathBoost, sourceOverride, t))
      else if q.WildcardQuery? then
        Done(FlattenWildcardQuery(env, q, pathBoost, sourceOverride, t))
      else if q.PrefixQuery? then
        Done(FlattenPrefixQuery(env.hashes, q.term.text, Times(pathBoost, q.boost), sourceOverride, t))
      else if q.CommonTermsQuery? then
        FlattenCommonTermsQuery(env, q, pathBoost, sourceOverride, t, fuel)
      else
        var unknown := FlattenUnknown(env, q, pathBoost, sourceOverride, t, fuel);
        if unknown.handled then unknown.outcome
        else RewriteAndFlatten(env, q, pathBoost, sourceOverride, t, fuel)
  }

  /**
   * The fallback for a query nothing recognised: rewrite it once; a different
   * query is flattened again with the original as its source.
   */
  function RewriteAndFlatten(env: Env, q: Query, pathBoost: real, sourceOverride: Option<Query>, t: Trace, fuel: nat): (r: Outcome)
    ensures Extends(t, r.trace)
    decreases fuel, Size(q), 1
  {
    match RewriteQuery(env, q)
    case RewriteFailed => Fail(t, WrappedExceptionFromLucene)
    case SameQuery => Done(t)
    case NewQuery(rewritten) =>
      if fuel == 0 then Fail(t, RewriteDepthExhausted)
      else Flatten(env, rewritten, pathBoost, Some(q), t, fuel - 1)
  }

  /** flattenSpan: the span classes it knows; any other query is declined, untouched. */
  function FlattenSpan(env: Env, q: Query, pathBoost: real, sourceOverride: Option<Query>, t: Trace, fuel: nat): (r: Handled)
    ensures Extends(t, r.outcome.trace)
    ensures r.handled <==> q.IsKnownSpan()
    ensures !r.handled ==> r.outcome == Done(t)
    decreases fuel, Size(q), 1
  {
    match q
    case SpanTermQuery(term, _) =>
      // the callback's id for the term is the term event's position in the log
      Handled(true, Done(Append(t, [TermEvent(term.text, 0.0, sourceOverride), EndSpanTermQuery(q, |t.log|)])))
    case SpanPositionCheckQuery(m, _, boost) =>
      Handled(true, FlattenSpan(env, m, Times(pathBoost, boost), sourceOverride, t, fuel).outcome)
    case SpanNearQuery(clauses, _, _, boost) =>
      var o := FlattenSpanClauses(env, clauses, Times(pathBoost, boost), sourceOverride, Append(t, [StartSpanNearQuery(q)]), fuel);
      Handled(true, Close(o, EndSpanNearQuery(q)))
    case SpanNotQuery(inc, _, boost) =>
      Handled(true, FlattenSpan(env, inc, Times(boost, pathBoost), sourceOverride, t, fuel).outcome)
    case SpanOrQuery(clauses, boost) =>
      var o := FlattenSpanClauses(env, clauses, Times(pathBoost, boost), sourceOverride, Append(t, [StartSpanOrQuery(q)]), fuel);
      Handled(true, Close(o, EndSpanOrQuery(q)))
    case SpanMultiTermQueryWrapper(wrapped, boost) =>
      var o := Flatten(env, wrapped, Times(pathBoost, boost), sourceOverride, Append(t, [StartSpanMultiQuery(q)]), fuel);
      Handled(true, Close(o, EndSpanMultiQuery(q)))
    case _ =>
      Handled(false, Done(t))
  }

  /**
   * flattenUnknown: the Lucene class declines everything; the Elasticsearch
   * subclass handles its four query classes.
   */
  function FlattenUnknown(env: Env, q: Query, pathBoost: real, sourceOverride: Option<Query>, t: Trace, fuel: nat): (r: Handled)
    ensures Extends(t, r.outcome.trace)
    ensures r.handled <==> env.config.flavor.Elasticsearch? && q.IsElasticsearchQuery()
    ensures !r.handled ==> r.outcome == Done(t)
    decreases fuel, Size(q), 1
  {
    if env.config.flavor.Lucene? then
      Handled(false, Done(t))
    else if q.XFilteredQuery? then
      Handled(true, FlattenWrapped(env, q.inner, Times(pathBoost, q.boost), sourceOverride, t, fuel))
    else if q.MultiPhrasePrefixQuery? then
      Handled(true, Done(FlattenMultiPhrasePrefixQuery(env, q, pathBoost, sourceOverride, t)))
    else if q.FunctionScoreQuery? then
      Handled(true, FlattenWrapped(env, q.inner, Times(pathBoost, q.boost), sourceOverride, t, fuel))
    else if q.FiltersFunctionScoreQuery? then
      Handled(true, FlattenWrapped(env, q.inner, Times(pathBoost, q.boost), sourceOverride, t, fuel))
    else
      Handled(false, Done(t))
  }

  // ----- Compound queries -----

  /** Boolean query: its clauses in order at pathBoost * boost, skipping MUST_NOT clauses. */
  function FlattenBooleanQuery(env: Env, q: Query, pathBoost: real, sourceOverride: Option<Query>, t: Trace, fuel: nat): (r: Outcome)
    requires q.BooleanQuery?
    ensures Extends(t, r.trace)
    decreases fuel, Size(q), 1
  {
    FlattenClauses(env, q.clauses, Times(pathBoost, q.boost), sourceOverride, t, fuel)
  }

  function FlattenClauses(env: Env, clauses: seq<Clause>, boost: real, sourceOverride: Option<Query>, t: Trace, fuel: nat): (r: Outcome)
    ensures Extends(t, r.trace)
    decreases fuel, ClausesSize(clauses), 3
  {
    if clauses == [] then Done(t)
    else if clauses[0].IsProhibited() then FlattenClauses(env, clauses[1..], boost, sourceOverride, t, fuel)
    else
      var o := Flatten(env, clauses[0].query, boost, sourceOverride, t, fuel);
      if o.failure.Some? then o else FlattenClauses(env, clauses[1..], boost, sourceOverride, o.trace, fuel)
  }

  /** Each query in order, at the same boost (disjunction-max disjuncts). */
  function FlattenEach(env: Env, qs: seq<Query>, boost: real, sourceOverride: Option<Query>, t: Trace, fuel: nat): (r: Outcome)
    ensures Extends(t, r.trace)
    decreases fuel, ListSize(qs), 3
  {
    if qs == [] then Done(t)
    else
      var o := Flatten(env, qs[0], boost, sourceOverride, t, fuel);
      if o.failure.Some? then o else FlattenEach(env, qs[1..], boost, sourceOverride, o.trace, fuel)
  }

  /** The clauses of a span-near or span-or query; flattenSpan's verdict is ignored. */
  function FlattenSpanClauses(env: Env, qs: seq<Query>, boost: real, sourceOverride: Option<Query>, t: Trace, fuel: nat): (r: Outcome)
    ensures Extends(t, r.trace)
    decreases fuel, ListSize(qs), 3
  {
    if qs == [] then Done(t)
    else
      var o := FlattenSpan(env, qs[0], boost, sourceOverride, t, fuel).outcome;
      if o.failure.Some? then o else FlattenSpanClauses(env, qs[1..], boost, sourceOverride, o.trace, fuel)
  }

  /**
   * The wrappers with an optional inner query (constant-score, filtered,
   * XFiltered, function-score, filters-function-score): nothing when it is
   * null, else the inner query at the boost given.
   */
  function FlattenWrapped(env: Env, inner: Option<Query>, boost: real, sourceOverride: Option<Query>, t: Trace, fuel: nat): (r: Outcome)
    ensures Extends(t, r.trace)
    decreases fuel, OptionSize(inner), 3
  {
    match inner
    case None => Done(t)
    case Some(query) => Flatten(env, query, boost, sourceOverride, t, fuel)
  }

  // ----- Phrases -----

  function TermEvents(terms: seq<Term>, boost: real, sourceOverride: Option<Query>): seq<Event>
  {
    if terms == [] then []
    else TermEvents(terms[..|terms| - 1], boost, sourceOverride) + [TermEvent(terms[|terms| - 1].text, boost, sourceOverride)]
  }

  /** The positions of a phrase query: one term each, at boost 0. */
  function SingleTermPositions(terms: seq<Term>, sourceOverride: Option<Query>): seq<Event>
  {
    if terms == [] then []
    else
      SingleTermPositions(terms[..|terms| - 1], sourceOverride) +
      [StartPhrasePosition(1), TermEvent(terms[|terms| - 1].text, 0.0, sourceOverride), EndPhrasePosition]
  }

  /** One position of a multi-valued phrase: its term count, its terms at boost 0, its end. */
  function PositionEvents(terms: seq<Term>, sourceOverride: Option<Query>): seq<Event>
  {
    [StartPhrasePosition(|terms|)] + TermEvents(terms, 0.0, sourceOverride) + [EndPhrasePosition]
  }

  function PhrasePositions(termArrays: seq<seq<Term>>, sourceOverride: Option<Query>): seq<Event>
  {
    if termArrays == [] then []
    else PhrasePositions(termArrays[..|termArrays| - 1], sourceOverride) + PositionEvents(termArrays[|termArrays| - 1], sourceOverride)
  }

  /** Every term of every position, at the same boost. */
  function AllTermEvents(termArrays: seq<seq<Term>>, boost: real, sourceOverride: Option<Query>): seq<Event>
  {
    if termArrays == [] then []
    else AllTermEvents(termArrays[..|termArrays| - 1], boost, sourceOverride) + TermEvents(termArrays[|termArrays| - 1], boost, sourceOverride)
  }

  /** The field of the last term met walking the positions in order, if any. */
  function LastField(termArrays: seq<seq<Term>>): Option<string>
  {
    if termArrays == [] then None
    else
      var terms := termArrays[|termArrays| - 1];
      if terms != [] then Some(terms[|terms| - 1].field)
      else LastField(termArrays[..|termArrays| - 1])
  }

  function FlattenPhraseQuery(env: Env, q: Query, pathBoost: real, sourceOverride: Option<Query>, t: Trace): Trace
    requires q.PhraseQuery?
  {
    var boost := Times(pathBoost, q.boost);
    if |q.terms| == 0 then t
    else if env.config.phraseAsTerms then Append(t, TermEvents(q.terms, boost, sourceOverride))
    else
      Append(t, [StartPhrase(|q.terms|, boost)] + SingleTermPositions(q.terms, sourceOverride) +
                [EndPhrase(q.terms[0].field, q.slop, boost)])
  }

  function FlattenMultiPhraseQuery(env: Env, q: Query, pathBoost: real, sourceOverride: Option<Query>, t: Trace): Trace
    requires q.MultiPhraseQuery?
  {
    var boost := Times(pathBoost, q.boost);
    if env.config.phraseAsTerms then Append(t, AllTermEvents(q.termArrays, boost, sourceOverride))
    else
      var ending := match LastField(q.termArrays)
        case None => []
        case Some(field) => [EndPhrase(field, q.slop, boost)];
      Append(t, [StartPhrase(|q.termArrays|, boost)] + PhrasePositions(q.termArrays, sourceOverride) + ending)
  }

  /**
   * Elasticsearch's multi-phrase-prefix query: the earlier positions as
   * terms, each term of the last position as a prefix automaton.
   */
  function FlattenMultiPhrasePrefixQuery(env: Env, q: Query, pathBoost: real, sourceOverride: Option<Query>, t: Trace): Trace
    requires q.MultiPhrasePrefixQuery?
  {
    var termArrays := q.termArrays;
    var boost := Times(pathBoost, q.boost);
    if |termArrays| == 0 then t
    else
      var sizeMinus1 := |termArrays| - 1;
      if env.config.phraseAsTerms then
        var terms := Append(t, AllTermEvents(termArrays[..sizeMinus1], boost, sourceOverride));
        FlattenPrefixes(env.hashes, termArrays[sizeMinus1], boost, sourceOverride, terms)
      else
        var started := Append(t, [StartPhrase(|termArrays|, boost)] + PhrasePositions(termArrays[..sizeMinus1], sourceOverride) +
                                [StartPhrasePosition(|termArrays[sizeMinus1]|)]);
        var prefixes := FlattenPrefixes(env.hashes, termArrays[sizeMinus1], 0.0, sourceOverride, started);
        Append(prefixes, [EndPhrasePosition, EndPhrase(q.field, q.slop, boost)])
  }

  /** flattenPrefixQuery on each term's bytes, in order. */
  function FlattenPrefixes(h: Hashes, terms: seq<Term>, boost: real, sourceOverride: Option<Query>, t: Trace): (r: Trace)
    ensures Extends(t, r)
  {
    if terms == [] then t
    else FlattenPrefixes(h, terms[1..], boost, sourceOverride, FlattenPrefixQuery(h, terms[0].text, boost, sourceOverride, t))
  }

  // ----- Automata -----

  /** The source sent with an automaton: the override's hash if there is one, else the key's. */
  function SourceId(h: Hashes, sourceOverride: Option<Query>, key: Key): int
  {
    match sourceOverride
    case Some(q) => KeyHash(h, QueryKey(q))
    case None => KeyHash(h, key)
  }

  /** `if (!sentAutomata.add(key)) return;` then the automaton. */
  function SendAutomaton(h: Hashes, t: Trace, key: Key, automaton: Automaton, boost: real, sourceOverride: Option<Query>): Trace
  {
    if key in t.sent then t
    else Trace(t.log + [AutomatonEvent(automaton, boost, SourceId(h, sourceOverride, key))], t.sent + {key})
  }

  function FlattenRegexpQuery(env: Env, q: Query, pathBoost: real, sourceOverride: Option<Query>, t: Trace): Trace
    requires q.RegexpQuery?
  {
    SendAutomaton(env.hashes, t, QueryKey(q), RegexpAutomaton(q.term), Times(pathBoost, q.boost), sourceOverride)
  }

  function FlattenWildcardQuery(env: Env, q: Query, pathBoost: real, sourceOverride: Option<Query>, t: Trace): Trace
    requires q.WildcardQuery?
  {
    SendAutomaton(env.hashes, t, BytesKey(q.term.text), WildcardAutomaton(q.term), Times(pathBoost, q.boost), sourceOverride)
  }

  function PrefixAutomaton(bytes: string): Automaton
  {
    Concatenation(StringAutomaton(bytes), AnyStringAutomaton)
  }

  /** flattenPrefixQuery: a prefix automaton keyed by the prefix bytes. */
  function FlattenPrefixQuery(h: Hashes, bytes: string, boost: real, sourceOverride: Option<Query>, t: Trace): Trace
  {
    SendAutomaton(h, t, BytesKey(bytes), PrefixAutomaton(bytes), boost, sourceOverride)
  }

  /** The Levenshtein automaton of a fuzzy query, behind an exact acceptor for its fixed prefix. */
  function FuzzyAutomaton(term: string, maxEdits: nat, transpositions: bool, prefixLength: nat): Automaton
    requires prefixLength < |term|
  {
    var editDistance := if maxEdits > MAXIMUM_SUPPORTED_DISTANCE then MAXIMUM_SUPPORTED_DISTANCE else maxEdits;
    var automaton := LevenshteinAutomaton(term[prefixLength..], transpositions, editDistance);
    if prefixLength > 0 then Concatenation(StringAutomaton(term[..prefixLength]), automaton) else automaton
  }

  function FlattenFuzzyQuery(env: Env, q: Query, pathBoost: real, sourceOverride: Option<Query>, t: Trace): Trace
    requires q.FuzzyQuery?
  {
    var boost := Times(pathBoost, q.boost);
    // no return after this term: the walk goes on below
    var t1 := if q.maxEdits == 0 then Append(t, [TermEvent(q.term.text, boost, sourceOverride)]) else t;
    var term := q.term.text;
    if q.prefixLength >= |term| then
      Append(t1, [TermEvent(q.term.text, boost, sourceOverride)])
    else
      var key := FuzzyKey(FuzzyQueryInfo(term, q.maxEdits, q.transpositions, q.prefixLength));
      SendAutomaton(env.hashes, t1, key, FuzzyAutomaton(term, q.maxEdits, q.transpositions, q.prefixLength), boost, sourceOverride)
  }

  // ----- Common terms -----

  /** A rewritten common-terms query shaped {SHOULD boolean (high frequency), MUST boolean (low frequency)}. */
  predicate HighFrequencySplit(r: Query)
  {
    r.BooleanQuery? && |r.clauses| == 2 &&
    r.clauses[0].occur == Should && r.clauses[1].occur == Must &&
    r.clauses[0].query.BooleanQuery? && r.clauses[1].query.BooleanQuery?
  }

  function FlattenCommonTermsQuery(env: Env, q: Query, pathBoost: real, sourceOverride: Option<Query>, t: Trace, fuel: nat): (r: Outcome)
    requires q.CommonTermsQuery?
    ensures Extends(t, r.trace)
    decreases fuel, Size(q), 1
  {
    var rewrite := RewriteQuery(env, q);
    if rewrite.RewriteFailed? then Fail(t, WrappedExceptionFromLucene)
    else
      var rewritten := if rewrite.NewQuery? then rewrite.query else q;
      if fuel == 0 then Fail(t, RewriteDepthExhausted)
      else if !env.config.removeHighFrequencyTermsFromCommonTerms then
        Flatten(env, rewritten, pathBoost, sourceOverride, t, fuel - 1)
      else if !rewritten.BooleanQuery? then
        // flattened, then cast to BooleanQuery all the same
        var o := Flatten(env, rewritten, pathBoost, sourceOverride, t, fuel - 1);
        if o.failure.Some? then o else Fail(o.trace, ClassCastException)
      else if HighFrequencySplit(rewritten) then
        FlattenBooleanQuery(env, rewritten.clauses[1].query, pathBoost, sourceOverride, t, fuel - 1)
      else
        FlattenBooleanQuery(env, rewritten, pathBoost, sourceOverride, t, fuel - 1)
  }
}
