/**
 * QueryFlattener as a class: the deduplication set and the callback's event
 * log are fields that its methods update in place, in the order the Java
 * methods make their calls. Every method is proved to leave the object in
 * the state the functions of FlattenSpec describe, so the lemmas proved
 * about those functions hold of the class.
 *
 * The Elasticsearch subclass is the same class constructed with the
 * Elasticsearch flavor: its flattenUnknown override is the flavor test in
 * FlattenUnknown.
 */
module Flattener {
  import opened QueryModel
  import opened Events
  import S = FlattenSpec
  import W = FlattenWellFormed

  class QueryFlattener {
    /** maxMultiTermQueryTerms, phraseAsTerms, removeHighFrequencyTermsFromCommonTerms, and the class. */
    const config: S.Config
    /** The runtime's hashCode for queries, byte strings and strings. */
    const hashes: Hashes
    /** The keys of the automata already sent. */
    var sentAutomata: set<Key>
    /** The calls made on the callback so far, in order. */
    var events: seq<Event>

    function State(): S.Trace
      reads this
    {
      S.Trace(events, sentAutomata)
    }

    /** The walk's fixed context when the index is read through `reader`. */
    function EnvWith(reader: Query -> S.RewriteOutcome): (env: S.Env)
      ensures env.config == config && env.hashes == hashes && env.reader == reader
    {
      S.Env(config, hashes, reader)
    }

    /** QueryFlattener() and ElasticsearchQueryFlattener(): the default configuration. */
    constructor Default(flavor: S.Flavor, hashes: Hashes)
      ensures config == S.DefaultConfig(flavor) && this.hashes == hashes
      ensures sentAutomata == {} && events == []
    {
      this.config := S.Config(1000, false, true, flavor);
      this.hashes := hashes;
      sentAutomata := {};
      events := [];
    }

    /** QueryFlattener(int, boolean, boolean) and its Elasticsearch counterpart. */
    constructor (maxMultiTermQueryTerms: int, phraseAsTerms: bool, removeHighFrequencyTermsFromCommonTerms: bool,
                 flavor: S.Flavor, hashes: Hashes)
      ensures config == S.Config(maxMultiTermQueryTerms, phraseAsTerms, removeHighFrequencyTermsFromCommonTerms, flavor)
      ensures this.hashes == hashes
      ensures sentAutomata == {} && events == []
    {
      this.config := S.Config(maxMultiTermQueryTerms, phraseAsTerms, removeHighFrequencyTermsFromCommonTerms, flavor);
      this.hashes := hashes;
      sentAutomata := {};
      events := [];
    }

    // ----- The deduplication set and the callback -----

    /** `sentAutomata.add(key)`: true exactly when the key was not there yet. */
    method Add(key: Key) returns (added: bool)
      modifies this
      ensures added <==> key !in old(sentAutomata)
      ensures sentAutomata == old(sentAutomata) + {key} && events == old(events)
    {
      added := key !in sentAutomata;
      sentAutomata := sentAutomata + {key};
    }

    /** `callback.flattened(term, boost, sourceOverride)`; the id it returns is the event's index. */
    method SendTerm(text: string, boost: real, sourceOverride: Option<Query>) returns (id: int)
      modifies this
      ensures events == old(events) + [TermEvent(text, boost, sourceOverride)] && sentAutomata == old(sentAutomata)
      ensures id == |old(events)| && events[id] == TermEvent(text, boost, sourceOverride)
    {
      id := |events|;
      events := events + [TermEvent(text, boost, sourceOverride)];
    }

    /** Each term of an array, in order, at the same boost. */
    method SendTerms(terms: seq<Term>, boost: real, sourceOverride: Option<Query>)
      modifies this
      ensures events == old(events) + S.TermEvents(terms, boost, sourceOverride)
      ensures sentAutomata == old(sentAutomata)
    {
      var i := 0;
      while i < |terms|
        invariant 0 <= i <= |terms|
        invariant events == old(events) + S.TermEvents(terms[..i], boost, sourceOverride)
        invariant sentAutomata == old(sentAutomata)
      {
        assert terms[..i + 1][..i] == terms[..i];
        var _ := SendTerm(terms[i].text, boost, sourceOverride);
        i := i + 1;
      }
      assert terms[..|terms|] == terms;
    }

    /** One position of a phrase: its term count, its terms at boost 0, its end; gives the field of its last term. */
    method SendPosition(terms: seq<Term>, sourceOverride: Option<Query>) returns (field: Option<string>)
      modifies this
      ensures events == old(events) + S.PositionEvents(terms, sourceOverride)
      ensures sentAutomata == old(sentAutomata)
      ensures field == if terms == [] then None else Some(terms[|terms| - 1].field)
    {
      events := events + [StartPhrasePosition(|terms|)];
      field := None;
      var i := 0;
      while i < |terms|
        invariant 0 <= i <= |terms|
        invariant events == old(events) + [StartPhrasePosition(|terms|)] + S.TermEvents(terms[..i], 0.0, sourceOverride)
        invariant sentAutomata == old(sentAutomata)
        invariant field == if i == 0 then None else Some(terms[i - 1].field)
      {
        assert terms[..i + 1][..i] == terms[..i];
        var _ := SendTerm(terms[i].text, 0.0, sourceOverride);
        field := Some(terms[i].field);
        i := i + 1;
      }
      assert terms[..|terms|] == terms;
      events := events + [EndPhrasePosition];
    }

    // ----- Dispatch -----

    /** flatten(query, reader, callback): the walk from the root, at boost 1 and with no source override. */
    method Flatten(q: Query, reader: Query -> S.RewriteOutcome, fuel: nat) returns (failure: Option<S.Failure>)
      modifies this
      ensures S.Outcome(State(), failure) == S.Flatten(EnvWith(reader), q, 1.0, None, old(State()), fuel)
      ensures old(events) <= events && old(sentAutomata) <= sentAutomata
      ensures |sentAutomata| == |old(sentAutomata)| + AutomatonCount(events[|old(events)|..])
      ensures W.ClosesPhrases(q) && W.ReaderClosesPhrases(EnvWith(reader)) && failure.None? ==>
        Balanced(events[|old(events)|..])
    {
      ghost var before := State();
      failure := FlattenAt(q, 1.0, None, reader, fuel);
      W.FlattenIsWellFormed(EnvWith(reader), q, 1.0, None, before, fuel);
    }

    /** flatten(query, pathBoost, sourceOverride, reader, callback): the instanceof chain, then the rewrite fallback. */
    method FlattenAt(q: Query, pathBoost: real, sourceOverride: Option<Query>, reader: Query -> S.RewriteOutcome, fuel: nat)
      returns (failure: Option<S.Failure>)
      modifies this
      ensures S.Outcome(State(), failure) == S.Flatten(EnvWith(reader), q, pathBoost, sourceOverride, old(State()), fuel)
      decreases fuel, Size(q), 2
    {
      failure := None;
      if q.TermQuery? {
        var _ := SendTerm(q.term.text, S.Times(pathBoost, q.boost), sourceOverride);
      } else if q.PhraseQuery? {
        FlattenPhrase(q, pathBoost, sourceOverride, reader);
      } else if q.BooleanQuery? {
        failure := FlattenBoolean(q, pathBoost, sourceOverride, reader, fuel);
      } else if q.DisjunctionMaxQuery? {
        failure := FlattenDisjunctionMax(q, pathBoost, sourceOverride, reader, fuel);
      } else if q.ConstantScoreQuery? || q.FilteredQuery? {
        failure := FlattenWrapped(q.inner, S.Times(pathBoost, q.boost), sourceOverride, reader, fuel);
      } else if q.MultiPhraseQuery? {
        FlattenMultiPhrase(q, pathBoost, sourceOverride, reader);
      } else {
        var handled := false;
        if q.IsSpan() {
          handled, failure := FlattenSpan(q, pathBoost, sourceOverride, reader, fuel);
        }
        if !handled {
          failure := FlattenLeaf(q, pathBoost, sourceOverride, reader, fuel);
        }
      }
    }

    /** The rest of the instanceof chain: the multi-term queries, common terms, the hook and the rewrite fallback. */
    method FlattenLeaf(q: Query, pathBoost: real, sourceOverride: Option<Query>, reader: Query -> S.RewriteOutcome, fuel: nat)
      returns (failure: Option<S.Failure>)
      requires !(q.TermQuery? || q.PhraseQuery? || q.BooleanQuery? || q.DisjunctionMaxQuery? ||
                 q.ConstantScoreQuery? || q.FilteredQuery? || q.MultiPhraseQuery? || q.IsKnownSpan())
      modifies this
      ensures S.Outcome(State(), failure) == S.Flatten(EnvWith(reader), q, pathBoost, sourceOverride, old(State()), fuel)
      decreases fuel, Size(q), 1
    {
      failure := None;
      if q.FuzzyQuery? {
        FlattenFuzzy(q, pathBoost, sourceOverride, reader);
      } else if q.RegexpQuery? {
        FlattenRegexp(q, pathBoost, sourceOverride, reader);
      } else if q.WildcardQuery? {
        FlattenWildcard(q, pathBoost, sourceOverride, reader);
      } else if q.PrefixQuery? {
        FlattenPrefixQuery(q.term.text, S.Times(pathBoost, q.boost), sourceOverride);
      } else if q.CommonTermsQuery? {
        failure := FlattenCommonTerms(q, pathBoost, sourceOverride, reader, fuel);
      } else {
        var handled;
        handled, failure := FlattenUnknown(q, pathBoost, sourceOverride, reader, fuel);
        if !handled {
          failure := RewriteAndFlatten(q, pathBoost, sourceOverride, reader, fuel);
        }
      }
    }

    /** Rewrite once; a different query is flattened again with the original as its source. */
    method RewriteAndFlatten(q: Query, pathBoost: real, sourceOverride: Option<Query>, reader: Query -> S.RewriteOutcome, fuel: nat)
      returns (failure: Option<S.Failure>)
      modifies this
      ensures S.Outcome(State(), failure) == S.RewriteAndFlatten(EnvWith(reader), q, pathBoost, sourceOverride, old(State()), fuel)
      decreases fuel, Size(q), 0
    {
      var rewritten := RewriteQuery(q, reader);
      match rewritten
      case RewriteFailed =>
        failure := Some(S.WrappedExceptionFromLucene);
      case SameQuery =>
        failure := None;
      case NewQuery(r) =>
        if fuel == 0 {
          failure := Some(S.RewriteDepthExhausted);
        } else {
          failure := FlattenAt(r, pathBoost, Some(q), reader, fuel - 1);
        }
    }

    /** flattenSpan: true when the query is a span class it knows, which it then flattens. */
    method FlattenSpan(q: Query, pathBoost: real, sourceOverride: Option<Query>, reader: Query -> S.RewriteOutcome, fuel: nat)
      returns (handled: bool, failure: Option<S.Failure>)
      modifies this
      ensures S.Handled(handled, S.Outcome(State(), failure)) == S.FlattenSpan(EnvWith(reader), q, pathBoost, sourceOverride, old(State()), fuel)
      decreases fuel, Size(q), 1
    {
      handled := true;
      failure := None;
      if q.SpanTermQuery? {
        FlattenSpanTerm(q, pathBoost, sourceOverride, reader);
      } else if q.SpanPositionCheckQuery? {
        failure := FlattenSpanPositionCheck(q, pathBoost, sourceOverride, reader, fuel);
      } else if q.SpanNearQuery? {
        failure := FlattenSpanNear(q, pathBoost, sourceOverride, reader, fuel);
      } else if q.SpanNotQuery? {
        failure := FlattenSpanNot(q, pathBoost, sourceOverride, reader, fuel);
      } else if q.SpanOrQuery? {
        failure := FlattenSpanOr(q, pathBoost, sourceOverride, reader, fuel);
      } else if q.SpanMultiTermQueryWrapper? {
        failure := FlattenSpanMulti(q, pathBoost, sourceOverride, reader, fuel);
      } else {
        handled := false;
      }
    }

    /**
     * flattenUnknown: the Lucene class declines every query; the Elasticsearch
     * subclass handles its four classes.
     */
    method FlattenUnknown(q: Query, pathBoost: real, sourceOverride: Option<Query>, reader: Query -> S.RewriteOutcome, fuel: nat)
      returns (handled: bool, failure: Option<S.Failure>)
      modifies this
      ensures S.Handled(handled, S.Outcome(State(), failure)) == S.FlattenUnknown(EnvWith(reader), q, pathBoost, sourceOverride, old(State()), fuel)
      decreases fuel, Size(q), 0
    {
      handled := true;
      failure := None;
      if config.flavor.Lucene? {
        handled := false;
      } else if q.XFilteredQuery? || q.FunctionScoreQuery? || q.FiltersFunctionScoreQuery? {
        failure := FlattenWrapped(q.inner, S.Times(pathBoost, q.boost), sourceOverride, reader, fuel);
      } else if q.MultiPhrasePrefixQuery? {
        FlattenMultiPhrasePrefix(q, pathBoost, sourceOverride, reader);
      } else {
        handled := false;
      }
    }

    // ----- Compound queries -----

    /** Boolean query: each clause that is not MUST_NOT, in order, at pathBoost * boost. */
    method FlattenBoolean(q: Query, pathBoost: real, sourceOverride: Option<Query>, reader: Query -> S.RewriteOutcome, fuel: nat)
      returns (failure: Option<S.Failure>)
      requires q.BooleanQuery?
      modifies this
      ensures S.Outcome(State(), failure) == S.FlattenBooleanQuery(EnvWith(reader), q, pathBoost, sourceOverride, old(State()), fuel)
      decreases fuel, Size(q), 0
    {
      var env := EnvWith(reader);
      var boost := S.Times(pathBoost, q.boost);
      var clauses := q.clauses;
      failure := None;
      var i := 0;
      while i < |clauses|
        invariant 0 <= i <= |clauses|
        invariant failure.None?
        invariant S.FlattenClauses(env, clauses[i..], boost, sourceOverride, State(), fuel) ==
                  S.FlattenClauses(env, clauses, boost, sourceOverride, old(State()), fuel)
      {
        assert clauses[i..][0] == clauses[i] && clauses[i..][1..] == clauses[i + 1..];
        if !clauses[i].IsProhibited() {
          ClauseSizeBound(clauses, i);
          failure := FlattenAt(clauses[i].query, boost, sourceOverride, reader, fuel);
          if failure.Some? {
            return;
          }
        }
        i := i + 1;
      }
    }

    /** Disjunction-max query: each disjunct in order at pathBoost * boost. */
    method FlattenDisjunctionMax(q: Query, pathBoost: real, sourceOverride: Option<Query>, reader: Query -> S.RewriteOutcome, fuel: nat)
      returns (failure: Option<S.Failure>)
      requires q.DisjunctionMaxQuery?
      modifies this
      ensures S.Outcome(State(), failure) == S.FlattenEach(EnvWith(reader), q.disjuncts, S.Times(pathBoost, q.boost), sourceOverride, old(State()), fuel)
      decreases fuel, Size(q), 0
    {
      var env := EnvWith(reader);
      var boost := S.Times(pathBoost, q.boost);
      var disjuncts := q.disjuncts;
      failure := None;
      var i := 0;
      while i < |disjuncts|
        invariant 0 <= i <= |disjuncts|
        invariant failure.None?
        invariant S.FlattenEach(env, disjuncts[i..], boost, sourceOverride, State(), fuel) ==
                  S.FlattenEach(env, disjuncts, boost, sourceOverride, old(State()), fuel)
      {
        assert disjuncts[i..][0] == disjuncts[i] && disjuncts[i..][1..] == disjuncts[i + 1..];
        ListSizeBound(disjuncts, i);
        failure := FlattenAt(disjuncts[i], boost, sourceOverride, reader, fuel);
        if failure.Some? {
          return;
        }
        i := i + 1;
      }
    }

    /**
     * The wrappers around an optional query (constant-score, filtered,
     * XFiltered, function-score, filters-function-score): nothing when it is
     * null, else the inner query at the boost given.
     */
    method FlattenWrapped(inner: Option<Query>, boost: real, sourceOverride: Option<Query>, reader: Query -> S.RewriteOutcome, fuel: nat)
      returns (failure: Option<S.Failure>)
      modifies this
      ensures S.Outcome(State(), failure) == S.FlattenWrapped(EnvWith(reader), inner, boost, sourceOverride, old(State()), fuel)
      decreases fuel, OptionSize(inner), 3
    {
      failure := None;
      if inner.Some? {
        failure := FlattenAt(inner.value, boost, sourceOverride, reader, fuel);
      }
    }

    // ----- Phrases -----

    method FlattenPhrase(q: Query, pathBoost: real, sourceOverride: Option<Query>, reader: Query -> S.RewriteOutcome)
      requires q.PhraseQuery?
      modifies this
      ensures State() == S.FlattenPhraseQuery(EnvWith(reader), q, pathBoost, sourceOverride, old(State()))
    {
      var boost := S.Times(pathBoost, q.boost);
      var terms := q.terms;
      if |terms| == 0 {
        return;
      }
      if config.phraseAsTerms {
        SendTerms(terms, boost, sourceOverride);
      } else {
        events := events + [StartPhrase(|terms|, boost)];
        var i := 0;
        while i < |terms|
          invariant 0 <= i <= |terms|
          invariant events == old(events) + [StartPhrase(|terms|, boost)] + S.SingleTermPositions(terms[..i], sourceOverride)
          invariant sentAutomata == old(sentAutomata)
        {
          assert terms[..i + 1][..i] == terms[..i];
          events := events + [StartPhrasePosition(1)];
          var _ := SendTerm(terms[i].text, 0.0, sourceOverride);
          events := events + [EndPhrasePosition];
          i := i + 1;
        }
        assert terms[..|terms|] == terms;
        events := events + [EndPhrase(terms[0].field, q.slop, boost)];
      }
    }

    method FlattenMultiPhrase(q: Query, pathBoost: real, sourceOverride: Option<Query>, reader: Query -> S.RewriteOutcome)
      requires q.MultiPhraseQuery?
      modifies this
      ensures State() == S.FlattenMultiPhraseQuery(EnvWith(reader), q, pathBoost, sourceOverride, old(State()))
    {
      var boost := S.Times(pathBoost, q.boost);
      var termArrays := q.termArrays;
      if config.phraseAsTerms {
        SendAllTerms(termArrays, boost, sourceOverride);
      } else {
        events := events + [StartPhrase(|termArrays|, boost)];
        // the field of the last term seen, null when there was none
        var field := SendPositions(termArrays, sourceOverride);
        if field.Some? {
          events := events + [EndPhrase(field.value, q.slop, boost)];
        }
      }
    }

    /** Every term of every array, in order, at the same boost. */
    method SendAllTerms(termArrays: seq<seq<Term>>, boost: real, sourceOverride: Option<Query>)
      modifies this
      ensures events == old(events) + S.AllTermEvents(termArrays, boost, sourceOverride)
      ensures sentAutomata == old(sentAutomata)
    {
      var i := 0;
      while i < |termArrays|
        invariant 0 <= i <= |termArrays|
        invariant events == old(events) + S.AllTermEvents(termArrays[..i], boost, sourceOverride)
        invariant sentAutomata == old(sentAutomata)
      {
        assert termArrays[..i + 1][..i] == termArrays[..i];
        SendTerms(termArrays[i], boost, sourceOverride);
        i := i + 1;
      }
      assert termArrays[..|termArrays|] == termArrays;
    }

    /** The positions of a phrase, in order; gives the field of the last term met, if any. */
    method SendPositions(termArrays: seq<seq<Term>>, sourceOverride: Option<Query>) returns (field: Option<string>)
      modifies this
      ensures events == old(events) + S.PhrasePositions(termArrays, sourceOverride)
      ensures sentAutomata == old(sentAutomata)
      ensures field == S.LastField(termArrays)
    {
      field := None;
      var i := 0;
      while i < |termArrays|
        invariant 0 <= i <= |termArrays|
        invariant events == old(events) + S.PhrasePositions(termArrays[..i], sourceOverride)
        invariant sentAutomata == old(sentAutomata)
        invariant field == S.LastField(termArrays[..i])
      {
        assert termArrays[..i + 1][..i] == termArrays[..i];
        var last := SendPosition(termArrays[i], sourceOverride);
        if last.Some? {
          field := last;
        }
        i := i + 1;
      }
      assert termArrays[..|termArrays|] == termArrays;
    }

    /** Elasticsearch's multi-phrase-prefix query: the last position's terms become prefix automata. */
    method FlattenMultiPhrasePrefix(q: Query, pathBoost: real, sourceOverride: Option<Query>, reader: Query -> S.RewriteOutcome)
      requires q.MultiPhrasePrefixQuery?
      modifies this
      ensures State() == S.FlattenMultiPhrasePrefixQuery(EnvWith(reader), q, pathBoost, sourceOverride, old(State()))
    {
      var termArrays := q.termArrays;
      var boost := S.Times(pathBoost, q.boost);
      if |termArrays| == 0 {
        return;
      }
      var sizeMinus1 := |termArrays| - 1;
      if config.phraseAsTerms {
        SendAllTerms(termArrays[..sizeMinus1], boost, sourceOverride);
        FlattenPrefixes(termArrays[sizeMinus1], boost, sourceOverride);
      } else {
        ghost var head := [StartPhrase(|termArrays|, boost)] + S.PhrasePositions(termArrays[..sizeMinus1], sourceOverride) +
                    [StartPhrasePosition(|termArrays[sizeMinus1]|)];
        events := events + [StartPhrase(|termArrays|, boost)];
        var _ := SendPositions(termArrays[..sizeMinus1], sourceOverride);
        events := events + [StartPhrasePosition(|termArrays[sizeMinus1]|)];
        assert State() == S.Append(old(State()), head);
        FlattenPrefixes(termArrays[sizeMinus1], 0.0, sourceOverride);
        events := events + [EndPhrasePosition, EndPhrase(q.field, q.slop, boost)];
      }
    }

    /** flattenPrefixQuery on the bytes of each term, in order. */
    method FlattenPrefixes(terms: seq<Term>, boost: real, sourceOverride: Option<Query>)
      modifies this
      ensures State() == S.FlattenPrefixes(hashes, terms, boost, sourceOverride, old(State()))
    {
      var i := 0;
      while i < |terms|
        invariant 0 <= i <= |terms|
        invariant S.FlattenPrefixes(hashes, terms[i..], boost, sourceOverride, State()) ==
                  S.FlattenPrefixes(hashes, terms, boost, sourceOverride, old(State()))
      {
        assert terms[i..][0] == terms[i] && terms[i..][1..] == terms[i + 1..];
        FlattenPrefixQuery(terms[i].text, boost, sourceOverride);
        i := i + 1;
      }
    }

    // ----- Span queries -----

    /** Span term: the term at boost 0, then endSpanTermQuery with the id the callback gave it. */
    method FlattenSpanTerm(q: Query, pathBoost: real, sourceOverride: Option<Query>, reader: Query -> S.RewriteOutcome)
      requires q.SpanTermQuery?
      modifies this
      ensures S.Done(State()) == S.FlattenSpan(EnvWith(reader), q, pathBoost, sourceOverride, old(State()), 0).outcome
    {
      var source := SendTerm(q.term.text, 0.0, sourceOverride);
      events := events + [EndSpanTermQuery(q, source)];
    }

    method FlattenSpanPositionCheck(q: Query, pathBoost: real, sourceOverride: Option<Query>, reader: Query -> S.RewriteOutcome, fuel: nat)
      returns (failure: Option<S.Failure>)
      requires q.SpanPositionCheckQuery?
      modifies this
      ensures S.Outcome(State(), failure) == S.FlattenSpan(EnvWith(reader), q, pathBoost, sourceOverride, old(State()), fuel).outcome
      decreases fuel, Size(q), 0
    {
      var handled;
      handled, failure := FlattenSpan(q.matchQuery, S.Times(pathBoost, q.boost), sourceOverride, reader, fuel);
    }

    /** Span-not: only the include side. */
    method FlattenSpanNot(q: Query, pathBoost: real, sourceOverride: Option<Query>, reader: Query -> S.RewriteOutcome, fuel: nat)
      returns (failure: Option<S.Failure>)
      requires q.SpanNotQuery?
      modifies this
      ensures S.Outcome(State(), failure) == S.FlattenSpan(EnvWith(reader), q, pathBoost, sourceOverride, old(State()), fuel).outcome
      decreases fuel, Size(q), 0
    {
      var handled;
      handled, failure := FlattenSpan(q.includeQuery, S.Times(q.boost, pathBoost), sourceOverride, reader, fuel);
    }

    method FlattenSpanNear(q: Query, pathBoost: real, sourceOverride: Option<Query>, reader: Query -> S.RewriteOutcome, fuel: nat)
      returns (failure: Option<S.Failure>)
      requires q.SpanNearQuery?
      modifies this
      ensures S.Outcome(State(), failure) == S.FlattenSpan(EnvWith(reader), q, pathBoost, sourceOverride, old(State()), fuel).outcome
      decreases fuel, Size(q), 0
    {
      var boost := S.Times(pathBoost, q.boost);
      events := events + [StartSpanNearQuery(q)];
      failure := FlattenSpanClauses(q.spanClauses, boost, sourceOverride, reader, fuel);
      if failure.None? {
        events := events + [EndSpanNearQuery(q)];
      }
    }

    method FlattenSpanOr(q: Query, pathBoost: real, sourceOverride: Option<Query>, reader: Query -> S.RewriteOutcome, fuel: nat)
      returns (failure: Option<S.Failure>)
      requires q.SpanOrQuery?
      modifies this
      ensures S.Outcome(State(), failure) == S.FlattenSpan(EnvWith(reader), q, pathBoost, sourceOverride, old(State()), fuel).outcome
      decreases fuel, Size(q), 0
    {
      var boost := S.Times(pathBoost, q.boost);
      events := events + [StartSpanOrQuery(q)];
      failure := FlattenSpanClauses(q.spanClauses, boost, sourceOverride, reader, fuel);
      if failure.None? {
        events := events + [EndSpanOrQuery(q)];
      }
    }

    /** The clause loop of span-near and span-or; what flattenSpan answers is ignored. */
    method FlattenSpanClauses(clauses: seq<Query>, boost: real, sourceOverride: Option<Query>, reader: Query -> S.RewriteOutcome, fuel: nat)
      returns (failure: Option<S.Failure>)
      modifies this
      ensures S.Outcome(State(), failure) == S.FlattenSpanClauses(EnvWith(reader), clauses, boost, sourceOverride, old(State()), fuel)
      decreases fuel, ListSize(clauses), 2
    {
      var env := EnvWith(reader);
      failure := None;
      var i := 0;
      while i < |clauses|
        invariant 0 <= i <= |clauses|
        invariant failure.None?
        invariant S.FlattenSpanClauses(env, clauses[i..], boost, sourceOverride, State(), fuel) ==
                  S.FlattenSpanClauses(env, clauses, boost, sourceOverride, old(State()), fuel)
      {
        assert clauses[i..][0] == clauses[i] && clauses[i..][1..] == clauses[i + 1..];
        ListSizeBound(clauses, i);
        var handled;
        handled, failure := FlattenSpan(clauses[i], boost, sourceOverride, reader, fuel);
        if failure.Some? {
          return;
        }
        i := i + 1;
      }
    }

    method FlattenSpanMulti(q: Query, pathBoost: real, sourceOverride: Option<Query>, reader: Query -> S.RewriteOutcome, fuel: nat)
      returns (failure: Option<S.Failure>)
      requires q.SpanMultiTermQueryWrapper?
      modifies this
      ensures S.Outcome(State(), failure) == S.FlattenSpan(EnvWith(reader), q, pathBoost, sourceOverride, old(State()), fuel).outcome
      decreases fuel, Size(q), 0
    {
      var boost := S.Times(pathBoost, q.boost);
      events := events + [StartSpanMultiQuery(q)];
      failure := FlattenAt(q.wrapped, boost, sourceOverride, reader, fuel);
      if failure.None? {
        events := events + [EndSpanMultiQuery(q)];
      }
    }

    // ----- Automata -----

    /** Regexp query: its automaton once per query, keyed by the query itself. */
    method FlattenRegexp(q: Query, pathBoost: real, sourceOverride: Option<Query>, reader: Query -> S.RewriteOutcome)
      requires q.RegexpQuery?
      modifies this
      ensures State() == S.FlattenRegexpQuery(EnvWith(reader), q, pathBoost, sourceOverride, old(State()))
    {
      var added := Add(QueryKey(q));
      if !added {
        return;
      }
      var source := if sourceOverride.None? then hashes.ofQuery(q) else hashes.ofQuery(sourceOverride.value);
      events := events + [AutomatonEvent(RegexpAutomaton(q.term), S.Times(pathBoost, q.boost), source)];
    }

    /** Wildcard query: its automaton once per pattern, keyed by the pattern's bytes. */
    method FlattenWildcard(q: Query, pathBoost: real, sourceOverride: Option<Query>, reader: Query -> S.RewriteOutcome)
      requires q.WildcardQuery?
      modifies this
      ensures State() == S.FlattenWildcardQuery(EnvWith(reader), q, pathBoost, sourceOverride, old(State()))
    {
      var added := Add(BytesKey(q.term.text));
      if !added {
        return;
      }
      var source := if sourceOverride.None? then hashes.ofBytes(q.term.text) else hashes.ofQuery(sourceOverride.value);
      events := events + [AutomatonEvent(WildcardAutomaton(q.term), S.Times(pathBoost, q.boost), source)];
    }

    /** flattenPrefixQuery: the prefix followed by any string, once per prefix. */
    method FlattenPrefixQuery(bytes: string, boost: real, sourceOverride: Option<Query>)
      modifies this
      ensures State() == S.FlattenPrefixQuery(hashes, bytes, boost, sourceOverride, old(State()))
    {
      var added := Add(BytesKey(bytes));
      if !added {
        return;
      }
      var source := if sourceOverride.None? then hashes.ofBytes(bytes) else hashes.ofQuery(sourceOverride.value);
      var automaton := StringAutomaton(bytes);
      automaton := Concatenation(automaton, AnyStringAutomaton);
      events := events + [AutomatonEvent(automaton, boost, source)];
    }

    /**
     * Fuzzy query: a term when no edits are allowed (and the walk goes on), a
     * term alone when the prefix covers the term, else the Levenshtein
     * automaton once per FuzzyQueryInfo.
     */
    method FlattenFuzzy(q: Query, pathBoost: real, sourceOverride: Option<Query>, reader: Query -> S.RewriteOutcome)
      requires q.FuzzyQuery?
      modifies this
      ensures State() == S.FlattenFuzzyQuery(EnvWith(reader), q, pathBoost, sourceOverride, old(State()))
    {
      var boost := S.Times(pathBoost, q.boost);
      if q.maxEdits == 0 {
        var _ := SendTerm(q.term.text, boost, sourceOverride);
      }
      var term := q.term.text;
      if q.prefixLength >= |term| {
        var _ := SendTerm(q.term.text, boost, sourceOverride);
        return;
      }
      var info := FuzzyQueryInfo(term, q.maxEdits, q.transpositions, q.prefixLength);
      var added := Add(FuzzyKey(info));
      if !added {
        return;
      }
      var fuzzed := term[q.prefixLength..];
      var editDistance := q.maxEdits;
      if editDistance > S.MAXIMUM_SUPPORTED_DISTANCE {
        editDistance := S.MAXIMUM_SUPPORTED_DISTANCE;
      }
      var automaton := LevenshteinAutomaton(fuzzed, q.transpositions, editDistance);
      if q.prefixLength > 0 {
        automaton := Concatenation(StringAutomaton(term[..q.prefixLength]), automaton);
      }
      var source := if sourceOverride.None? then FuzzyQueryInfoHash(info, hashes.ofString) else hashes.ofQuery(sourceOverride.value);
      events := events + [AutomatonEvent(automaton, boost, source)];
    }

    // ----- Common terms and rewriting -----

    /**
     * Common-terms query: walk what it rewrites to; with high-frequency
     * removal, only the low-frequency half of a {SHOULD boolean, MUST boolean}
     * split, and a cast failure after walking a rewrite that is not boolean.
     */
    method FlattenCommonTerms(q: Query, pathBoost: real, sourceOverride: Option<Query>, reader: Query -> S.RewriteOutcome, fuel: nat)
      returns (failure: Option<S.Failure>)
      requires q.CommonTermsQuery?
      modifies this
      ensures S.Outcome(State(), failure) == S.FlattenCommonTermsQuery(EnvWith(reader), q, pathBoost, sourceOverride, old(State()), fuel)
      decreases fuel, Size(q), 0
    {
      var rewrite := RewriteQuery(q, reader);
      if rewrite.RewriteFailed? {
        return Some(S.WrappedExceptionFromLucene);
      }
      var rewritten := if rewrite.NewQuery? then rewrite.query else q;
      if fuel == 0 {
        return Some(S.RewriteDepthExhausted);
      }
      if !config.removeHighFrequencyTermsFromCommonTerms {
        failure := FlattenAt(rewritten, pathBoost, sourceOverride, reader, fuel - 1);
        return;
      }
      if !rewritten.BooleanQuery? {
        failure := FlattenAt(rewritten, pathBoost, sourceOverride, reader, fuel - 1);
        if failure.None? {
          failure := Some(S.ClassCastException);
        }
        return;
      }
      var clauses := rewritten.clauses;
      if |clauses| != 2 {
        failure := FlattenBoolean(rewritten, pathBoost, sourceOverride, reader, fuel - 1);
        return;
      }
      if clauses[0].occur != Should || clauses[1].occur != Must {
        failure := FlattenBoolean(rewritten, pathBoost, sourceOverride, reader, fuel - 1);
        return;
      }
      if !(clauses[0].query.BooleanQuery? && clauses[1].query.BooleanQuery?) {
        failure := FlattenBoolean(rewritten, pathBoost, sourceOverride, reader, fuel - 1);
        return;
      }
      var lowFrequency := clauses[1].query;
      failure := FlattenBoolean(lowFrequency, pathBoost, sourceOverride, reader, fuel - 1);
    }

    /** rewriteQuery: a multi-term query is cloned with a bounded top-terms rewrite first. */
    method RewriteQuery(q: Query, reader: Query -> S.RewriteOutcome) returns (r: S.Rewrite)
      ensures r == S.RewriteQuery(EnvWith(reader), q)
      ensures q.OtherMultiTermQuery? ==> !r.SameQuery?
    {
      if q.OtherMultiTermQuery? {
        var clone := q.(rewriteMethod := TopTermsScoringBooleanRewrite(config.maxMultiTermQueryTerms));
        r := RewritePreparedQuery(clone, reader);
        if r.SameQuery? {
          // the clone is a new object, so what comes back differs from the original
          r := S.NewQuery(clone);
        }
      } else {
        r := RewritePreparedQuery(q, reader);
      }
    }

    /** rewritePreparedQuery: the reader's answer, with an IOException wrapped. */
    method RewritePreparedQuery(q: Query, reader: Query -> S.RewriteOutcome) returns (r: S.Rewrite)
      ensures r.SameQuery? <==> reader(q).Unchanged?
      ensures r.RewriteFailed? <==> reader(q).ReadFailure?
      ensures r.NewQuery? ==> reader(q) == S.Rewritten(r.query)
    {
      match reader(q)
      case Unchanged => r := S.SameQuery;
      case Rewritten(rewritten) => r := S.NewQuery(rewritten);
      case ReadFailure => r := S.RewriteFailed;
    }
  }
}
