/**
 * What each handler of the flattener sends, stated over the event log: which
 * children are walked and at which boost, the fixed shape of phrases, the span
 * markers, automaton deduplication, the fuzzy-query fall-through, the rewrite
 * fallback, the common-terms pruning and the Elasticsearch extension hook.
 */
module FlattenProperties {
  import opened QueryModel
  import opened Events
  import opened FlattenSpec
  import opened FlattenWellFormed

  // ----- Boolean queries and wrappers -----

  /** The queries of the clauses that are not MUST_NOT, in order. */
  function Required(clauses: seq<Clause>): (qs: seq<Query>)
    ensures |qs| <= |clauses|
  {
    if clauses == [] then []
    else if clauses[0].IsProhibited() then Required(clauses[1..])
    else [clauses[0].query] + Required(clauses[1..])
  }

  lemma {:induction false} RequiredAppend(a: seq<Clause>, b: seq<Clause>)
    ensures Required(a + b) == Required(a) + Required(b)
    decreases a
  {
    if a == [] {
      assert a + b == b;
    } else {
      assert (a + b)[0] == a[0] && (a + b)[1..] == a[1..] + b;
      RequiredAppend(a[1..], b);
    }
  }

  /** Walking a list of queries in two parts: the second part starts where the first ended, unless it failed. */
  lemma {:induction false} EachAppend(env: Env, a: seq<Query>, b: seq<Query>, boost: real, sourceOverride: Option<Query>, t: Trace, fuel: nat)
    ensures FlattenEach(env, a + b, boost, sourceOverride, t, fuel) ==
      var o := FlattenEach(env, a, boost, sourceOverride, t, fuel);
      if o.failure.Some? then o else FlattenEach(env, b, boost, sourceOverride, o.trace, fuel)
    decreases a
  {
    if a == [] {
      assert a + b == b;
    } else {
      assert (a + b)[0] == a[0] && (a + b)[1..] == a[1..] + b;
      var o := Flatten(env, a[0], boost, sourceOverride, t, fuel);
      if o.failure.None? {
        EachAppend(env, a[1..], b, boost, sourceOverride, o.trace, fuel);
      }
    }
  }

  /** The clauses of a boolean query are walked as the list of their non-prohibited queries. */
  lemma {:induction false} ClausesSkipProhibited(env: Env, clauses: seq<Clause>, boost: real, sourceOverride: Option<Query>, t: Trace, fuel: nat)
    ensures FlattenClauses(env, clauses, boost, sourceOverride, t, fuel) == FlattenEach(env, Required(clauses), boost, sourceOverride, t, fuel)
    decreases clauses
  {
    if clauses != [] {
      if clauses[0].IsProhibited() {
        ClausesSkipProhibited(env, clauses[1..], boost, sourceOverride, t, fuel);
      } else {
        var qs := Required(clauses);
        assert qs[0] == clauses[0].query && qs[1..] == Required(clauses[1..]);
        var o := Flatten(env, clauses[0].query, boost, sourceOverride, t, fuel);
        if o.failure.None? {
          ClausesSkipProhibited(env, clauses[1..], boost, sourceOverride, o.trace, fuel);
        }
      }
    }
  }

  /** A boolean query walks its non-prohibited clauses in order at pathBoost * boost. */
  lemma BooleanQueryWalksRequiredClauses(env: Env, q: Query, pathBoost: real, sourceOverride: Option<Query>, t: Trace, fuel: nat)
    requires q.BooleanQuery?
    ensures Flatten(env, q, pathBoost, sourceOverride, t, fuel) ==
      FlattenEach(env, Required(q.clauses), Times(pathBoost, q.boost), sourceOverride, t, fuel)
  {
    ClausesSkipProhibited(env, q.clauses, Times(pathBoost, q.boost), sourceOverride, t, fuel);
  }

  /** A MUST_NOT clause contributes nothing, wherever it stands. */
  lemma ProhibitedClauseContributesNothing(env: Env, before: seq<Clause>, c: Clause, after: seq<Clause>, boost: real, sourceOverride: Option<Query>, t: Trace, fuel: nat)
    requires c.IsProhibited()
    ensures FlattenClauses(env, before + [c] + after, boost, sourceOverride, t, fuel) ==
      FlattenClauses(env, before + after, boost, sourceOverride, t, fuel)
  {
    ClausesSkipProhibited(env, before + [c] + after, boost, sourceOverride, t, fuel);
    ClausesSkipProhibited(env, before + after, boost, sourceOverride, t, fuel);
    RequiredAppend(before + [c], after);
    RequiredAppend(before, [c]);
    RequiredAppend(before, after);
    assert Required([c]) == [] by {
      assert [c][1..] == [];
    }
    assert Required(before + [c]) == Required(before);
    assert Required(before + [c] + after) == Required(before + after);
  }

  /** A disjunction-max query walks its disjuncts in order at pathBoost * boost. */
  lemma DisjunctionMaxWalksDisjuncts(env: Env, q: Query, pathBoost: real, sourceOverride: Option<Query>, t: Trace, fuel: nat)
    requires q.DisjunctionMaxQuery?
    ensures Flatten(env, q, pathBoost, sourceOverride, t, fuel) ==
      FlattenEach(env, q.disjuncts, Times(pathBoost, q.boost), sourceOverride, t, fuel)
  {
  }

  /** The Lucene wrappers: nothing for a null inner query, else the inner query at pathBoost * boost. */
  lemma WrapperWalksInner(env: Env, q: Query, pathBoost: real, sourceOverride: Option<Query>, t: Trace, fuel: nat)
    requires q.ConstantScoreQuery? || q.FilteredQuery?
    ensures q.inner.None? ==> Flatten(env, q, pathBoost, sourceOverride, t, fuel) == Done(t)
    ensures q.inner.Some? ==>
      Flatten(env, q, pathBoost, sourceOverride, t, fuel) == Flatten(env, q.inner.value, Times(pathBoost, q.boost), sourceOverride, t, fuel)
  {
  }

  /** The Elasticsearch wrappers behave alike when the Elasticsearch flattener walks them. */
  lemma ElasticsearchWrapperWalksInner(env: Env, q: Query, pathBoost: real, sourceOverride: Option<Query>, t: Trace, fuel: nat)
    requires env.config.flavor.Elasticsearch?
    requires q.XFilteredQuery? || q.FunctionScoreQuery? || q.FiltersFunctionScoreQuery?
    ensures q.inner.None? ==> Flatten(env, q, pathBoost, sourceOverride, t, fuel) == Done(t)
    ensures q.inner.Some? ==>
      Flatten(env, q, pathBoost, sourceOverride, t, fuel) == Flatten(env, q.inner.value, Times(pathBoost, q.boost), sourceOverride, t, fuel)
  {
    ExtensionDispatch(env, q, pathBoost, sourceOverride, t, fuel);
  }

  /** The Elasticsearch flattener hands its four classes to flattenUnknown; the Lucene one rewrites them. */
  lemma ExtensionDispatch(env: Env, q: Query, pathBoost: real, sourceOverride: Option<Query>, t: Trace, fuel: nat)
    requires q.IsElasticsearchQuery()
    ensures env.config.flavor.Elasticsearch? ==>
      Flatten(env, q, pathBoost, sourceOverride, t, fuel) == FlattenUnknown(env, q, pathBoost, sourceOverride, t, fuel).outcome
    ensures env.config.flavor.Lucene? ==>
      Flatten(env, q, pathBoost, sourceOverride, t, fuel) == RewriteAndFlatten(env, q, pathBoost, sourceOverride, t, fuel)
  {
  }

  // ----- Phrase queries -----

  lemma {:induction false} SingleTermPositionsAt(terms: seq<Term>, sourceOverride: Option<Query>)
    ensures |SingleTermPositions(terms, sourceOverride)| == 3 * |terms|
    ensures forall i :: 0 <= i < |terms| ==>
      SingleTermPositions(terms, sourceOverride)[3 * i] == StartPhrasePosition(1) &&
      SingleTermPositions(terms, sourceOverride)[3 * i + 1] == TermEvent(terms[i].text, 0.0, sourceOverride) &&
      SingleTermPositions(terms, sourceOverride)[3 * i + 2] == EndPhrasePosition
    decreases |terms|
  {
    if terms != [] {
      var init := terms[..|terms| - 1];
      SingleTermPositionsAt(init, sourceOverride);
      forall i | 0 <= i < |init|
        ensures terms[i] == init[i]
      {
      }
    }
  }

  lemma PhraseWithoutTermsSendsNothing(env: Env, q: Query, pathBoost: real, sourceOverride: Option<Query>, t: Trace, fuel: nat)
    requires q.PhraseQuery? && q.terms == []
    ensures Flatten(env, q, pathBoost, sourceOverride, t, fuel) == Done(t)
  {
  }

  /** With phraseAsTerms a phrase is its n terms at the phrase's full boost, and nothing else. */
  lemma PhraseAsTermsSendsTerms(env: Env, q: Query, pathBoost: real, sourceOverride: Option<Query>, t: Trace, fuel: nat)
    requires q.PhraseQuery? && env.config.phraseAsTerms
    ensures var r := Flatten(env, q, pathBoost, sourceOverride, t, fuel);
      r.failure.None? && r.trace.sent == t.sent && t.log <= r.trace.log &&
      |r.trace.log| == |t.log| + |q.terms| &&
      forall i :: 0 <= i < |q.terms| ==> r.trace.log[|t.log| + i] == TermEvent(q.terms[i].text, Times(pathBoost, q.boost), sourceOverride)
  {
    var boost := Times(pathBoost, q.boost);
    var es := TermEvents(q.terms, boost, sourceOverride);
    var r := Flatten(env, q, pathBoost, sourceOverride, t, fuel);
    TermEventsAt(q.terms, boost, sourceOverride);
    assert r == Done(if q.terms == [] then t else Append(t, es));
    forall i | 0 <= i < |q.terms|
      ensures r.trace.log[|t.log| + i] == es[i]
    {
    }
  }

  /**
   * Otherwise a phrase of n terms sends startPhrase(n, boost), then for each term
   * startPhrasePosition(1), the term at boost 0, endPhrasePosition, and finally
   * endPhrase with the first term's field: 3n + 2 events.
   */
  lemma PhraseShape(env: Env, q: Query, pathBoost: real, sourceOverride: Option<Query>, t: Trace, fuel: nat)
    requires q.PhraseQuery? && q.terms != [] && !env.config.phraseAsTerms
    ensures var r := Flatten(env, q, pathBoost, sourceOverride, t, fuel);
      var n := |q.terms|;
      var boost := Times(pathBoost, q.boost);
      r.failure.None? && r.trace.sent == t.sent && t.log <= r.trace.log &&
      |r.trace.log| == |t.log| + 3 * n + 2 &&
      r.trace.log[|t.log|] == StartPhrase(n, boost) &&
      (forall i :: 0 <= i < n ==>
        r.trace.log[|t.log| + 3 * i + 1] == StartPhrasePosition(1) &&
        r.trace.log[|t.log| + 3 * i + 2] == TermEvent(q.terms[i].text, 0.0, sourceOverride) &&
        r.trace.log[|t.log| + 3 * i + 3] == EndPhrasePosition) &&
      r.trace.log[|t.log| + 3 * n + 1] == EndPhrase(q.terms[0].field, q.slop, boost)
  {
    SingleTermPositionsAt(q.terms, sourceOverride);
  }

  // ----- Multi-phrase queries -----

  /** endPhrase's field: present exactly when some position has a term, and then the last such term's field. */
  lemma {:induction false} LastFieldIsLastTerm(termArrays: seq<seq<Term>>)
    ensures LastField(termArrays).None? <==> forall i :: 0 <= i < |termArrays| ==> termArrays[i] == []
    ensures LastField(termArrays).Some? ==>
      exists j :: 0 <= j < |termArrays| && termArrays[j] != [] &&
        LastField(termArrays).value == termArrays[j][|termArrays[j]| - 1].field &&
        forall k :: j < k < |termArrays| ==> termArrays[k] == []
    decreases |termArrays|
  {
    if termArrays != [] {
      var init := termArrays[..|termArrays| - 1];
      var last := termArrays[|termArrays| - 1];
      LastFieldIsLastTerm(init);
      if last == [] {
        if LastField(init).Some? {
          var j :| 0 <= j < |init| && init[j] != [] &&
            LastField(init).value == init[j][|init[j]| - 1].field &&
            forall k :: j < k < |init| ==> init[k] == [];
          assert termArrays[j] == init[j];
        }
        forall i | 0 <= i < |init|
          ensures termArrays[i] == init[i]
        {
        }
      } else {
        assert termArrays[|termArrays| - 1] != [];
      }
    }
  }

  /** Every term or automaton of s carries boost 0. */
  predicate PrimitivesAtZero(s: seq<Event>)
  {
    forall i :: 0 <= i < |s| && s[i].IsPrimitive() ==> s[i].boost == 0.0
  }

  lemma PrimitivesAtZeroAppend(a: seq<Event>, b: seq<Event>)
    requires PrimitivesAtZero(a) && PrimitivesAtZero(b)
    ensures PrimitivesAtZero(a + b)
  {
    forall i | 0 <= i < |a + b| && (a + b)[i].IsPrimitive()
      ensures (a + b)[i].boost == 0.0
    {
      if i >= |a| {
        assert (a + b)[i] == b[i - |a|];
      }
    }
  }

  lemma PositionFacts(terms: seq<Term>, sourceOverride: Option<Query>)
    ensures var es := PositionEvents(terms, sourceOverride);
      PrimitivesAtZero(es) && Count(es, IsPositionStart) == 1 && Count(es, IsPositionEnd) == 1 &&
      Count(es, IsPhraseStart) == 0 && Count(es, IsPhraseEnd) == 0
  {
    var inner := TermEvents(terms, 0.0, sourceOverride);
    TermEventsAt(terms, 0.0, sourceOverride);
    var open := StartPhrasePosition(|terms|);
    PrimitivesAtZeroAppend([open], inner);
    PrimitivesAtZeroAppend([open] + inner, [EndPhrasePosition]);
    forall p | p in {IsPositionStart, IsPositionEnd, IsPhraseStart, IsPhraseEnd}
      ensures Count(PositionEvents(terms, sourceOverride), p) == Count([open], p) + Count(inner, p) + Count([EndPhrasePosition], p)
    {
      CountAppend([open] + inner, [EndPhrasePosition], p);
      CountAppend([open], inner, p);
    }
    CountNone(inner, IsPositionStart);
    CountNone(inner, IsPositionEnd);
    CountNone(inner, IsPhraseStart);
    CountNone(inner, IsPhraseEnd);
    CountSingle(open, IsPositionStart);
    CountSingle(open, IsPositionEnd);
    CountSingle(open, IsPhraseStart);
    CountSingle(open, IsPhraseEnd);
    CountSingle(EndPhrasePosition, IsPositionStart);
    CountSingle(EndPhrasePosition, IsPositionEnd);
    CountSingle(EndPhrasePosition, IsPhraseStart);
    CountSingle(EndPhrasePosition, IsPhraseEnd);
  }

  lemma {:induction false} CountNone(s: seq<Event>, p: Event -> bool)
    requires forall i :: 0 <= i < |s| ==> !p(s[i])
    ensures Count(s, p) == 0
    decreases s
  {
    if s != [] {
      CountNone(s[1..], p);
    }
  }

  /** The positions of a multi-phrase: one balanced pair per position, primitives at boost 0, no phrase marker. */
  lemma {:induction false} PhrasePositionsFacts(termArrays: seq<seq<Term>>, sourceOverride: Option<Query>)
    ensures var es := PhrasePositions(termArrays, sourceOverride);
      Balanced(es) && PrimitivesAtZero(es) &&
      Count(es, IsPositionStart) == |termArrays| && Count(es, IsPositionEnd) == |termArrays| &&
      Count(es, IsPhraseStart) == 0 && Count(es, IsPhraseEnd) == 0
    decreases |termArrays|
  {
    PlainPhrasePositions(termArrays, sourceOverride);
    if termArrays != [] {
      var init := termArrays[..|termArrays| - 1];
      var last := termArrays[|termArrays| - 1];
      PhrasePositionsFacts(init, sourceOverride);
      PositionFacts(last, sourceOverride);
      PrimitivesAtZeroAppend(PhrasePositions(init, sourceOverride), PositionEvents(last, sourceOverride));
      CountAppend(PhrasePositions(init, sourceOverride), PositionEvents(last, sourceOverride), IsPositionStart);
      CountAppend(PhrasePositions(init, sourceOverride), PositionEvents(last, sourceOverride), IsPositionEnd);
      CountAppend(PhrasePositions(init, sourceOverride), PositionEvents(last, sourceOverride), IsPhraseStart);
      CountAppend(PhrasePositions(init, sourceOverride), PositionEvents(last, sourceOverride), IsPhraseEnd);
    }
  }

  /**
   * A multi-phrase query, phrase mode: startPhrase(#positions, boost) always,
   * then every position; endPhrase only when some term was seen, with the
   * field of the last term.
   */
  lemma MultiPhraseShape(env: Env, q: Query, pathBoost: real, sourceOverride: Option<Query>, t: Trace, fuel: nat)
    requires q.MultiPhraseQuery? && !env.config.phraseAsTerms
    ensures var r := Flatten(env, q, pathBoost, sourceOverride, t, fuel);
      var boost := Times(pathBoost, q.boost);
      var positions := PhrasePositions(q.termArrays, sourceOverride);
      r.failure.None? && r.trace.sent == t.sent &&
      (LastField(q.termArrays).Some? ==>
        r.trace.log == t.log + [StartPhrase(|q.termArrays|, boost)] + positions + [EndPhrase(LastField(q.termArrays).value, q.slop, boost)]) &&
      (LastField(q.termArrays).None? ==>
        r.trace.log == t.log + [StartPhrase(|q.termArrays|, boost)] + positions)
  {
  }

  /** With phraseAsTerms a multi-phrase is every term of every position at full boost. */
  lemma MultiPhraseAsTermsSendsTerms(env: Env, q: Query, pathBoost: real, sourceOverride: Option<Query>, t: Trace, fuel: nat)
    requires q.MultiPhraseQuery? && env.config.phraseAsTerms
    ensures var r := Flatten(env, q, pathBoost, sourceOverride, t, fuel);
      r.failure.None? && r.trace.sent == t.sent &&
      r.trace.log == t.log + TermEvents(Concat(q.termArrays), Times(pathBoost, q.boost), sourceOverride)
  {
    AllTermEventsAreTermEvents(q.termArrays, Times(pathBoost, q.boost), sourceOverride);
  }

  /** The terms of all positions, in order. */
  function Concat(termArrays: seq<seq<Term>>): (terms: seq<Term>)
  {
    if termArrays == [] then [] else Concat(termArrays[..|termArrays| - 1]) + termArrays[|termArrays| - 1]
  }

  lemma {:induction false} TermEventsAppend(a: seq<Term>, b: seq<Term>, boost: real, sourceOverride: Option<Query>)
    ensures TermEvents(a + b, boost, sourceOverride) == TermEvents(a, boost, sourceOverride) + TermEvents(b, boost, sourceOverride)
    decreases |b|
  {
    if b == [] {
      assert a + b == a;
    } else {
      var init := b[..|b| - 1];
      assert (a + b)[..|a + b| - 1] == a + init;
      assert (a + b)[|a + b| - 1] == b[|b| - 1];
      TermEventsAppend(a, init, boost, sourceOverride);
    }
  }

  lemma {:induction false} AllTermEventsAreTermEvents(termArrays: seq<seq<Term>>, boost: real, sourceOverride: Option<Query>)
    ensures AllTermEvents(termArrays, boost, sourceOverride) == TermEvents(Concat(termArrays), boost, sourceOverride)
    decreases |termArrays|
  {
    if termArrays != [] {
      var init := termArrays[..|termArrays| - 1];
      AllTermEventsAreTermEvents(init, boost, sourceOverride);
      TermEventsAppend(Concat(init), termArrays[|termArrays| - 1], boost, sourceOverride);
    }
  }

  // ----- Span queries -----

  /** Walking span clauses in two parts. */
  lemma {:induction false} SpanClausesAppend(env: Env, a: seq<Query>, b: seq<Query>, boost: real, sourceOverride: Option<Query>, t: Trace, fuel: nat)
    ensures FlattenSpanClauses(env, a + b, boost, sourceOverride, t, fuel) ==
      var o := FlattenSpanClauses(env, a, boost, sourceOverride, t, fuel);
      if o.failure.Some? then o else FlattenSpanClauses(env, b, boost, sourceOverride, o.trace, fuel)
    decreases a
  {
    if a == [] {
      assert a + b == b;
    } else {
      assert (a + b)[0] == a[0] && (a + b)[1..] == a[1..] + b;
      var o := FlattenSpan(env, a[0], boost, sourceOverride, t, fuel).outcome;
      if o.failure.None? {
        SpanClausesAppend(env, a[1..], b, boost, sourceOverride, o.trace, fuel);
      }
    }
  }

  /** A span clause of a type flattenSpan does not know is dropped without trace. */
  lemma UnknownSpanClauseDropped(env: Env, before: seq<Query>, x: Query, after: seq<Query>, boost: real, sourceOverride: Option<Query>, t: Trace, fuel: nat)
    requires !x.IsKnownSpan()
    ensures FlattenSpanClauses(env, before + [x] + after, boost, sourceOverride, t, fuel) ==
      FlattenSpanClauses(env, before + after, boost, sourceOverride, t, fuel)
  {
    SpanClausesAppend(env, before + [x], after, boost, sourceOverride, t, fuel);
    SpanClausesAppend(env, before, [x], boost, sourceOverride, t, fuel);
    SpanClausesAppend(env, before, after, boost, sourceOverride, t, fuel);
    var o := FlattenSpanClauses(env, before, boost, sourceOverride, t, fuel);
    assert FlattenSpanClauses(env, [x], boost, sourceOverride, o.trace, fuel) == Done(o.trace) by {
      assert [x][0] == x && [x][1..] == [];
    }
  }

  /** Span-near and span-or: the start marker, the clauses in order at pathBoost * boost, the end marker. */
  lemma SpanNearOrBrackets(env: Env, q: Query, pathBoost: real, sourceOverride: Option<Query>, t: Trace, fuel: nat)
    requires q.SpanNearQuery? || q.SpanOrQuery?
    ensures var start := if q.SpanNearQuery? then StartSpanNearQuery(q) else StartSpanOrQuery(q);
      var end := if q.SpanNearQuery? then EndSpanNearQuery(q) else EndSpanOrQuery(q);
      var inner := FlattenSpanClauses(env, q.spanClauses, Times(pathBoost, q.boost), sourceOverride, Append(t, [start]), fuel);
      Flatten(env, q, pathBoost, sourceOverride, t, fuel) ==
        if inner.failure.Some? then inner else Done(Append(inner.trace, [end]))
  {
  }

  /** With no clauses, span-near and span-or still send their start and end markers. */
  lemma EmptySpanNearOrIsBalanced(env: Env, q: Query, pathBoost: real, sourceOverride: Option<Query>, t: Trace, fuel: nat)
    requires (q.SpanNearQuery? || q.SpanOrQuery?) && q.spanClauses == []
    ensures var r := Flatten(env, q, pathBoost, sourceOverride, t, fuel);
      r.failure.None? && r.trace.sent == t.sent &&
      r.trace.log == t.log + (if q.SpanNearQuery? then [StartSpanNearQuery(q), EndSpanNearQuery(q)]
                              else [StartSpanOrQuery(q), EndSpanOrQuery(q)]) &&
      Balanced(r.trace.log[|t.log|..])
  {
    var start := if q.SpanNearQuery? then StartSpanNearQuery(q) else StartSpanOrQuery(q);
    var end := if q.SpanNearQuery? then EndSpanNearQuery(q) else EndSpanOrQuery(q);
    var r := Flatten(env, q, pathBoost, sourceOverride, t, fuel);
    SpanNearOrBrackets(env, q, pathBoost, sourceOverride, t, fuel);
    assert r.trace.log[|t.log|..] == [start] + [] + [end];
    BalancedWrap(start, [], end);
  }

  /** Span-not walks only its include side, at boost * pathBoost; the exclude side never matters. */
  lemma SpanNotIgnoresExclude(env: Env, inc: Query, exc1: Query, exc2: Query, boost: real, pathBoost: real, sourceOverride: Option<Query>, t: Trace, fuel: nat)
    ensures Flatten(env, SpanNotQuery(inc, exc1, boost), pathBoost, sourceOverride, t, fuel) ==
      FlattenSpan(env, inc, Times(boost, pathBoost), sourceOverride, t, fuel).outcome
    ensures Flatten(env, SpanNotQuery(inc, exc1, boost), pathBoost, sourceOverride, t, fuel) ==
      Flatten(env, SpanNotQuery(inc, exc2, boost), pathBoost, sourceOverride, t, fuel)
  {
  }

  /** A position-check query unwraps to its match query with no marker of its own. */
  lemma SpanPositionCheckUnwraps(env: Env, q: Query, pathBoost: real, sourceOverride: Option<Query>, t: Trace, fuel: nat)
    requires q.SpanPositionCheckQuery?
    ensures Flatten(env, q, pathBoost, sourceOverride, t, fuel) ==
      FlattenSpan(env, q.matchQuery, Times(pathBoost, q.boost), sourceOverride, t, fuel).outcome
  {
  }

  /**
   * A span term: its term at boost 0, then endSpanTermQuery carrying the id the
   * callback gave for that term, which is the term event's place in the log.
   */
  lemma SpanTermSendsTermThenEnd(env: Env, q: Query, pathBoost: real, sourceOverride: Option<Query>, t: Trace, fuel: nat)
    requires q.SpanTermQuery?
    ensures var r := Flatten(env, q, pathBoost, sourceOverride, t, fuel);
      r.failure.None? && r.trace.sent == t.sent && |r.trace.log| == |t.log| + 2 &&
      r.trace.log[..|t.log|] == t.log &&
      r.trace.log[|t.log| + 1].EndSpanTermQuery? && r.trace.log[|t.log| + 1].query == q &&
      r.trace.log[|t.log| + 1].source == |t.log| &&
      r.trace.log[r.trace.log[|t.log| + 1].source] == TermEvent(q.term.text, 0.0, sourceOverride)
  {
  }

  // ----- Automata -----

  /** An automaton is sent only for a key not yet sent, carrying the override's hash or else the key's. */
  lemma SendAutomatonOnce(env: Env, t: Trace, key: Key, automaton: Automaton, boost: real, sourceOverride: Option<Query>)
    ensures var u := SendAutomaton(env.hashes, t, key, automaton, boost, sourceOverride);
      key in u.sent && u.sent == t.sent + {key} &&
      (key in t.sent ==> u == t) &&
      (key !in t.sent ==> u.log == t.log + [AutomatonEvent(automaton, boost,
          if sourceOverride.Some? then env.hashes.ofQuery(sourceOverride.value) else KeyHash(env.hashes, key))])
  {
  }

  /** Sending the same key twice sends one automaton. */
  lemma SendAutomatonIdempotent(env: Env, t: Trace, key: Key, a1: Automaton, a2: Automaton, b1: real, b2: real, s1: Option<Query>, s2: Option<Query>)
    ensures var u := SendAutomaton(env.hashes, t, key, a1, b1, s1);
      SendAutomaton(env.hashes, u, key, a2, b2, s2) == u
  {
  }

  /** A regexp query is keyed by the query itself: the same regexp query twice sends one automaton. */
  lemma RegexpDeduplicated(env: Env, q: Query, pathBoost: real, sourceOverride: Option<Query>, t: Trace, fuel: nat)
    requires q.RegexpQuery?
    ensures var u := Flatten(env, q, pathBoost, sourceOverride, t, fuel).trace;
      QueryKey(q) in u.sent && Flatten(env, q, pathBoost, sourceOverride, u, fuel) == Done(u)
  {
  }

  /** Wildcard and prefix queries share the term-bytes key space: after either, the other with the same bytes sends nothing. */
  lemma WildcardAndPrefixShareKeys(env: Env, text: string, f1: string, f2: string, b1: real, b2: real, pathBoost: real, sourceOverride: Option<Query>, t: Trace, fuel: nat)
    ensures var u := Flatten(env, WildcardQuery(Term(f1, text), b1), pathBoost, sourceOverride, t, fuel).trace;
      Flatten(env, PrefixQuery(Term(f2, text), b2), pathBoost, sourceOverride, u, fuel) == Done(u)
    ensures var u := Flatten(env, PrefixQuery(Term(f1, text), b1), pathBoost, sourceOverride, t, fuel).trace;
      Flatten(env, WildcardQuery(Term(f2, text), b2), pathBoost, sourceOverride, u, fuel) == Done(u)
  {
  }

  // ----- Fuzzy queries -----

  /** The automaton: distance min(maxEdits, 2) on the text after the prefix, behind an exact prefix acceptor only when the prefix is non-empty. */
  lemma FuzzyAutomatonShape(term: string, maxEdits: nat, transpositions: bool, prefixLength: nat)
    requires prefixLength < |term|
    ensures var a := FuzzyAutomaton(term, maxEdits, transpositions, prefixLength);
      var lev := LevenshteinAutomaton(term[prefixLength..], transpositions, if maxEdits <= MAXIMUM_SUPPORTED_DISTANCE then maxEdits else MAXIMUM_SUPPORTED_DISTANCE);
      (prefixLength == 0 ==> a == lev) &&
      (prefixLength > 0 ==> a == Concatenation(StringAutomaton(term[..prefixLength]), lev)) &&
      lev.distance <= MAXIMUM_SUPPORTED_DISTANCE
  {
  }

  /** A prefix covering the whole term: a term event, and no automaton or key (two term events when maxEdits is 0). */
  lemma FuzzyShortCircuit(env: Env, q: Query, pathBoost: real, sourceOverride: Option<Query>, t: Trace, fuel: nat)
    requires q.FuzzyQuery? && q.prefixLength >= |q.term.text|
    ensures var r := Flatten(env, q, pathBoost, sourceOverride, t, fuel);
      var e := TermEvent(q.term.text, Times(pathBoost, q.boost), sourceOverride);
      r.failure.None? && r.trace.sent == t.sent &&
      r.trace.log == t.log + (if q.maxEdits == 0 then [e, e] else [e])
  {
  }

  /**
   * maxEdits 0 sends a term and goes on: with a shorter prefix the term is
   * followed by a distance-0 automaton when its key is new.
   */
  lemma FuzzyZeroEditsFallsThrough(env: Env, q: Query, pathBoost: real, sourceOverride: Option<Query>, t: Trace, fuel: nat)
    requires q.FuzzyQuery? && q.maxEdits == 0 && q.prefixLength < |q.term.text|
    ensures var r := Flatten(env, q, pathBoost, sourceOverride, t, fuel);
      var boost := Times(pathBoost, q.boost);
      var key := FuzzyKey(FuzzyQueryInfo(q.term.text, 0, q.transpositions, q.prefixLength));
      r.failure.None? && r.trace.sent == t.sent + {key} &&
      (key !in t.sent ==>
        r.trace.log == t.log + [TermEvent(q.term.text, boost, sourceOverride),
          AutomatonEvent(FuzzyAutomaton(q.term.text, 0, q.transpositions, q.prefixLength), boost, SourceId(env.hashes, sourceOverride, key))]) &&
      (key in t.sent ==> r.trace.log == t.log + [TermEvent(q.term.text, boost, sourceOverride)])
  {
  }

  /** Otherwise a fuzzy query is a single automaton, deduplicated by its FuzzyQueryInfo. */
  lemma FuzzySendsAutomaton(env: Env, q: Query, pathBoost: real, sourceOverride: Option<Query>, t: Trace, fuel: nat)
    requires q.FuzzyQuery? && q.maxEdits > 0 && q.prefixLength < |q.term.text|
    ensures var r := Flatten(env, q, pathBoost, sourceOverride, t, fuel);
      var boost := Times(pathBoost, q.boost);
      var key := FuzzyKey(FuzzyQueryInfo(q.term.text, q.maxEdits, q.transpositions, q.prefixLength));
      var auto := FuzzyAutomaton(q.term.text, q.maxEdits, q.transpositions, q.prefixLength);
      r == Done(SendAutomaton(env.hashes, t, key, auto, boost, sourceOverride)) &&
      r.trace.sent == t.sent + {key} &&
      (key !in t.sent ==> r.trace.log == t.log + [AutomatonEvent(auto, boost, SourceId(env.hashes, sourceOverride, key))]) &&
      (key in t.sent ==> r.trace.log == t.log)
  {
    var key := FuzzyKey(FuzzyQueryInfo(q.term.text, q.maxEdits, q.transpositions, q.prefixLength));
    var auto := FuzzyAutomaton(q.term.text, q.maxEdits, q.transpositions, q.prefixLength);
    SendAutomatonOnce(env, t, key, auto, Times(pathBoost, q.boost), sourceOverride);
  }

  // ----- The rewrite fallback -----

  /** Queries no branch of flatten and no flattenUnknown recognises. */
  predicate Unrecognised(flavor: Flavor, q: Query)
  {
    (q.OtherQuery? || q.OtherMultiTermQuery? || q.OtherSpanQuery?) ||
    (flavor.Lucene? && q.IsElasticsearchQuery())
  }

  /** An unrecognised query is rewritten: the same query sends nothing, a failed read is wrapped. */
  lemma RewriteUnchangedSendsNothing(env: Env, q: Query, pathBoost: real, sourceOverride: Option<Query>, t: Trace, fuel: nat)
    requires Unrecognised(env.config.flavor, q)
    ensures env.reader(q).ReadFailure? && !q.OtherMultiTermQuery? ==>
      Flatten(env, q, pathBoost, sourceOverride, t, fuel) == Fail(t, WrappedExceptionFromLucene)
    ensures env.reader(q).Unchanged? && !q.OtherMultiTermQuery? ==>
      Flatten(env, q, pathBoost, sourceOverride, t, fuel) == Done(t)
  {
  }

  /** A rewrite to another query flattens that query with the original as the source. */
  lemma RewrittenIsFlattenedWithSource(env: Env, q: Query, pathBoost: real, sourceOverride: Option<Query>, t: Trace, fuel: nat)
    requires Unrecognised(env.config.flavor, q) && fuel > 0
    requires env.reader(BoundedForRewrite(env.config, q)).Rewritten?
    ensures Flatten(env, q, pathBoost, sourceOverride, t, fuel) ==
      Flatten(env, env.reader(BoundedForRewrite(env.config, q)).query, pathBoost, Some(q), t, fuel - 1)
  {
  }

  /** A multi-term query is rewritten as a clone with a top-terms rewrite bounded by maxMultiTermQueryTerms. */
  lemma MultiTermQueryRewrittenBounded(env: Env, q: Query)
    requires q.OtherMultiTermQuery?
    ensures BoundedForRewrite(env.config, q) == q.(rewriteMethod := TopTermsScoringBooleanRewrite(env.config.maxMultiTermQueryTerms))
    ensures env.reader(BoundedForRewrite(env.config, q)).Unchanged? ==> RewriteQuery(env, q) == NewQuery(BoundedForRewrite(env.config, q))
  {
  }

  // ----- Common terms -----

  /** With removal on and a rewrite {SHOULD high, MUST low}, only the low-frequency query's clauses are walked. */
  lemma CommonTermsSplitWalksLowFrequency(env: Env, q: Query, pathBoost: real, sourceOverride: Option<Query>, t: Trace, fuel: nat)
    requires q.CommonTermsQuery? && fuel > 0 && env.config.removeHighFrequencyTermsFromCommonTerms
    requires env.reader(q).Rewritten? && HighFrequencySplit(env.reader(q).query)
    ensures var low := env.reader(q).query.clauses[1].query;
      Flatten(env, q, pathBoost, sourceOverride, t, fuel) ==
        FlattenEach(env, Required(low.clauses), Times(pathBoost, low.boost), sourceOverride, t, fuel - 1)
  {
    var low := env.reader(q).query.clauses[1].query;
    assert RewriteQuery(env, q) == NewQuery(env.reader(q).query);
    assert Flatten(env, q, pathBoost, sourceOverride, t, fuel) == FlattenCommonTermsQuery(env, q, pathBoost, sourceOverride, t, fuel);
    assert FlattenCommonTermsQuery(env, q, pathBoost, sourceOverride, t, fuel) ==
      FlattenBooleanQuery(env, low, pathBoost, sourceOverride, t, fuel - 1);
    ClausesSkipProhibited(env, low.clauses, Times(pathBoost, low.boost), sourceOverride, t, fuel - 1);
  }

  /** Any other boolean rewrite is walked whole. */
  lemma CommonTermsOtherBooleanWalkedWhole(env: Env, q: Query, pathBoost: real, sourceOverride: Option<Query>, t: Trace, fuel: nat)
    requires q.CommonTermsQuery? && fuel > 0
    requires env.reader(q).Rewritten? && env.reader(q).query.BooleanQuery?
    requires !(env.config.removeHighFrequencyTermsFromCommonTerms && HighFrequencySplit(env.reader(q).query))
    ensures Flatten(env, q, pathBoost, sourceOverride, t, fuel) ==
      Flatten(env, env.reader(q).query, pathBoost, sourceOverride, t, fuel - 1)
  {
  }

  /** A non-boolean rewrite with removal on: its events are sent, then the cast fails. */
  lemma CommonTermsNonBooleanFailsAfterEvents(env: Env, q: Query, pathBoost: real, sourceOverride: Option<Query>, t: Trace, fuel: nat)
    requires q.CommonTermsQuery? && fuel > 0 && env.config.removeHighFrequencyTermsFromCommonTerms
    requires env.reader(q).Rewritten? && !env.reader(q).query.BooleanQuery?
    ensures var r := Flatten(env, q, pathBoost, sourceOverride, t, fuel);
      var inner := Flatten(env, env.reader(q).query, pathBoost, sourceOverride, t, fuel - 1);
      r.trace == inner.trace && r.failure.Some? &&
      (inner.failure.None? ==> r.failure == Some(ClassCastException))
  {
  }

  // ----- The Elasticsearch extension hook -----

  /** flattenUnknown handles exactly the four Elasticsearch classes, and only in the Elasticsearch flattener. */
  lemma ExtensionHandlesExactlyFour(env: Env, q: Query, pathBoost: real, sourceOverride: Option<Query>, t: Trace, fuel: nat)
    ensures FlattenUnknown(env, q, pathBoost, sourceOverride, t, fuel).handled <==>
      env.config.flavor.Elasticsearch? &&
      (q.XFilteredQuery? || q.MultiPhrasePrefixQuery? || q.FunctionScoreQuery? || q.FiltersFunctionScoreQuery?)
    ensures Unrecognised(env.config.flavor, q) ==>
      Flatten(env, q, pathBoost, sourceOverride, t, fuel) == RewriteAndFlatten(env, q, pathBoost, sourceOverride, t, fuel)
  {
  }

  // ----- Multi-phrase-prefix queries -----

  lemma EmptyMultiPhrasePrefixSendsNothing(env: Env, q: Query, pathBoost: real, sourceOverride: Option<Query>, t: Trace, fuel: nat)
    requires env.config.flavor.Elasticsearch? && q.MultiPhrasePrefixQuery? && q.termArrays == []
    ensures Flatten(env, q, pathBoost, sourceOverride, t, fuel) == Done(t)
  {
  }

  /** phraseAsTerms: the earlier positions as terms at full boost, then the last position's terms as prefix automata at full boost. */
  lemma MultiPhrasePrefixAsTerms(env: Env, q: Query, pathBoost: real, sourceOverride: Option<Query>, t: Trace, fuel: nat)
    requires env.config.flavor.Elasticsearch? && q.MultiPhrasePrefixQuery? && q.termArrays != [] && env.config.phraseAsTerms
    ensures var r := Flatten(env, q, pathBoost, sourceOverride, t, fuel);
      var n := |q.termArrays| - 1;
      var boost := Times(pathBoost, q.boost);
      var terms := Append(t, TermEvents(Concat(q.termArrays[..n]), boost, sourceOverride));
      r.failure.None? && terms.log <= r.trace.log &&
      r.trace == FlattenPrefixes(env.hashes, q.termArrays[n], boost, sourceOverride, terms) &&
      AutomataOnly(r.trace.log[|terms.log|..], boost)
  {
    var n := |q.termArrays| - 1;
    var boost := Times(pathBoost, q.boost);
    AllTermEventsAreTermEvents(q.termArrays[..n], boost, sourceOverride);
    ExtensionDispatch(env, q, pathBoost, sourceOverride, t, fuel);
    StepPrefixes(env, q.termArrays[n], boost, sourceOverride, Append(t, TermEvents(Concat(q.termArrays[..n]), boost, sourceOverride)));
  }

  /** At most one automaton per term of the last position, fewer when keys were already sent. */
  lemma {:induction false} PrefixesAtMostOnePerTerm(env: Env, terms: seq<Term>, boost: real, sourceOverride: Option<Query>, t: Trace)
    ensures var u := FlattenPrefixes(env.hashes, terms, boost, sourceOverride, t);
      t.log <= u.log && |u.log| - |t.log| <= |terms| &&
      (forall term :: term in terms ==> BytesKey(term.text) in u.sent) &&
      ((forall term :: term in terms ==> BytesKey(term.text) in t.sent) ==> u == t)
    decreases terms
  {
    if terms != [] {
      var t1 := FlattenPrefixQuery(env.hashes, terms[0].text, boost, sourceOverride, t);
      PrefixesAtMostOnePerTerm(env, terms[1..], boost, sourceOverride, t1);
      var u := FlattenPrefixes(env.hashes, terms, boost, sourceOverride, t);
      forall term | term in terms
        ensures BytesKey(term.text) in u.sent
      {
        if term != terms[0] {
          assert term in terms[1..];
        }
      }
      if forall term :: term in terms ==> BytesKey(term.text) in t.sent {
        assert terms[0] in terms;
        forall term | term in terms[1..]
          ensures BytesKey(term.text) in t1.sent
        {
          assert term in terms;
        }
      }
    }
  }

  /**
   * Phrase mode: one startPhrase(size, boost); the earlier positions; the last
   * position announced with all its terms, holding exactly the prefix
   * automata flattenPrefixQuery sends for its terms at boost 0 (one per new
   * key), after which every one of their keys is sent; one endPhrase with the
   * query's field.
   */
  lemma MultiPhrasePrefixPhraseShape(env: Env, q: Query, pathBoost: real, sourceOverride: Option<Query>, t: Trace, fuel: nat)
    requires env.config.flavor.Elasticsearch? && q.MultiPhrasePrefixQuery? && q.termArrays != [] && !env.config.phraseAsTerms
    ensures var r := Flatten(env, q, pathBoost, sourceOverride, t, fuel);
      var n := |q.termArrays| - 1;
      var last := q.termArrays[n];
      var boost := Times(pathBoost, q.boost);
      var head := [StartPhrase(|q.termArrays|, boost)] + PhrasePositions(q.termArrays[..n], sourceOverride) + [StartPhrasePosition(|last|)];
      r.failure.None? && t.log + head <= r.trace.log && |r.trace.log| >= |t.log| + |head| + 2 &&
      var autos := r.trace.log[|t.log| + |head|..|r.trace.log| - 2];
      r.trace.log == t.log + head + autos + [EndPhrasePosition, EndPhrase(q.field, q.slop, boost)] &&
      AutomataOnly(autos, 0.0) && |autos| <= |last| &&
      r.trace == Append(FlattenPrefixes(env.hashes, last, 0.0, sourceOverride, Append(t, head)),
                        [EndPhrasePosition, EndPhrase(q.field, q.slop, boost)]) &&
      (forall term :: term in last ==> BytesKey(term.text) in r.trace.sent)
  {
    var n := |q.termArrays| - 1;
    var last := q.termArrays[n];
    var boost := Times(pathBoost, q.boost);
    var early := PhrasePositions(q.termArrays[..n], sourceOverride);
    var head := [StartPhrase(|q.termArrays|, boost)] + early + [StartPhrasePosition(|last|)];
    var started := Append(t, head);
    var prefixes := FlattenPrefixes(env.hashes, last, 0.0, sourceOverride, started);
    var r := Flatten(env, q, pathBoost, sourceOverride, t, fuel);
    ExtensionDispatch(env, q, pathBoost, sourceOverride, t, fuel);
    assert r.trace == Append(prefixes, [EndPhrasePosition, EndPhrase(q.field, q.slop, boost)]);
    StepPrefixes(env, last, 0.0, sourceOverride, started);
    PrefixesAtMostOnePerTerm(env, last, 0.0, sourceOverride, started);
    var autos := prefixes.log[|started.log|..];
    assert prefixes.log == t.log + head + autos;
    assert r.trace.log[|t.log| + |head|..|r.trace.log| - 2] == autos;
  }

  /** Phrase mode: exactly one startPhrase and one endPhrase, size balanced position pairs, every term and automaton at boost 0. */
  lemma MultiPhrasePrefixPhraseMarkers(env: Env, q: Query, pathBoost: real, sourceOverride: Option<Query>, t: Trace, fuel: nat)
    requires env.config.flavor.Elasticsearch? && q.MultiPhrasePrefixQuery? && q.termArrays != [] && !env.config.phraseAsTerms
    ensures var r := Flatten(env, q, pathBoost, sourceOverride, t, fuel);
      var es := r.trace.log[|t.log|..];
      t.log <= r.trace.log &&
      Count(es, IsPhraseStart) == 1 && Count(es, IsPhraseEnd) == 1 &&
      Count(es, IsPositionStart) == |q.termArrays| && Count(es, IsPositionEnd) == |q.termArrays| &&
      PrimitivesAtZero(es) && Balanced(es)
  {
    var n := |q.termArrays| - 1;
    var last := q.termArrays[n];
    var boost := Times(pathBoost, q.boost);
    var early := PhrasePositions(q.termArrays[..n], sourceOverride);
    var head := [StartPhrase(|q.termArrays|, boost)] + early + [StartPhrasePosition(|last|)];
    var r := Flatten(env, q, pathBoost, sourceOverride, t, fuel);
    MultiPhrasePrefixPhraseShape(env, q, pathBoost, sourceOverride, t, fuel);
    var autos := r.trace.log[|t.log| + |head|..|r.trace.log| - 2];
    var es := r.trace.log[|t.log|..];
    assert es == PrefixPhraseEvents(|q.termArrays|, boost, q.termArrays[..n], sourceOverride, |last|, autos, q.field, q.slop);
    PrefixPhraseEventsFacts(|q.termArrays|, boost, q.termArrays[..n], sourceOverride, |last|, autos, q.field, q.slop);
  }

  /** The events of a multi-phrase-prefix phrase, its last position holding the automata sent. */
  function PrefixPhraseEvents(size: nat, boost: real, early: seq<seq<Term>>, sourceOverride: Option<Query>,
                              lastSize: nat, autos: seq<Event>, field: string, slop: int): seq<Event>
  {
    [StartPhrase(size, boost)] + PhrasePositions(early, sourceOverride) + [StartPhrasePosition(lastSize)] +
    autos + [EndPhrasePosition, EndPhrase(field, slop, boost)]
  }

  lemma PrefixPhraseEventsFacts(size: nat, boost: real, early: seq<seq<Term>>, sourceOverride: Option<Query>,
                                lastSize: nat, autos: seq<Event>, field: string, slop: int)
    requires AutomataOnly(autos, 0.0)
    ensures var es := PrefixPhraseEvents(size, boost, early, sourceOverride, lastSize, autos, field, slop);
      Count(es, IsPhraseStart) == 1 && Count(es, IsPhraseEnd) == 1 &&
      Count(es, IsPositionStart) == |early| + 1 && Count(es, IsPositionEnd) == |early| + 1 &&
      PrimitivesAtZero(es) && Balanced(es)
  {
    var positions := PhrasePositions(early, sourceOverride);
    var lastPosition := [StartPhrasePosition(lastSize)] + autos + [EndPhrasePosition];
    var es := PrefixPhraseEvents(size, boost, early, sourceOverride, lastSize, autos, field, slop);
    assert es == [StartPhrase(size, boost)] + (positions + lastPosition) + [EndPhrase(field, slop, boost)];
    PhrasePositionsFacts(early, sourceOverride);
    LastPositionFacts(lastSize, autos);
    PrimitivesAtZeroAppend(positions, lastPosition);
    PhraseFacts(StartPhrase(size, boost), positions + lastPosition, EndPhrase(field, slop, boost));
    forall p | p in {IsPositionStart, IsPositionEnd, IsPhraseStart, IsPhraseEnd}
      ensures Count(positions + lastPosition, p) == Count(positions, p) + Count(lastPosition, p)
    {
      CountAppend(positions, lastPosition, p);
    }
    BalancedConcat(positions, lastPosition);
    PhraseBracket(StartPhrase(size, boost), positions + lastPosition, EndPhrase(field, slop, boost));
  }

  /** A position holding automata only at boost 0: one position pair, no phrase marker, balanced. */
  lemma LastPositionFacts(size: nat, autos: seq<Event>)
    requires AutomataOnly(autos, 0.0)
    ensures var es := [StartPhrasePosition(size)] + autos + [EndPhrasePosition];
      Balanced(es) && PrimitivesAtZero(es) &&
      Count(es, IsPositionStart) == 1 && Count(es, IsPositionEnd) == 1 &&
      Count(es, IsPhraseStart) == 0 && Count(es, IsPhraseEnd) == 0
  {
    var open := StartPhrasePosition(size);
    AutomataOnlyNeutral(autos, 0.0);
    BalancedWrap(open, autos, EndPhrasePosition);
    PrimitivesAtZeroAppend([open], autos);
    PrimitivesAtZeroAppend([open] + autos, [EndPhrasePosition]);
    forall p | p in {IsPositionStart, IsPositionEnd, IsPhraseStart, IsPhraseEnd}
      ensures Count([open] + autos + [EndPhrasePosition], p) == Count([open], p) + Count(autos, p) + Count([EndPhrasePosition], p)
    {
      CountAppend([open] + autos, [EndPhrasePosition], p);
      CountAppend([open], autos, p);
    }
    CountNone(autos, IsPositionStart);
    CountNone(autos, IsPositionEnd);
    CountNone(autos, IsPhraseStart);
    CountNone(autos, IsPhraseEnd);
    CountSingle(open, IsPositionStart);
    CountSingle(open, IsPositionEnd);
    CountSingle(open, IsPhraseStart);
    CountSingle(open, IsPhraseEnd);
    CountSingle(EndPhrasePosition, IsPositionStart);
    CountSingle(EndPhrasePosition, IsPositionEnd);
    CountSingle(EndPhrasePosition, IsPhraseStart);
    CountSingle(EndPhrasePosition, IsPhraseEnd);
  }

  /** The phrase markers around a body with none of its own. */
  lemma PhraseFacts(start: Event, body: seq<Event>, end: Event)
    requires start.StartPhrase? && end.EndPhrase? && PrimitivesAtZero(body)
    ensures var es := [start] + body + [end];
      PrimitivesAtZero(es) &&
      Count(es, IsPhraseStart) == 1 + Count(body, IsPhraseStart) && Count(es, IsPhraseEnd) == 1 + Count(body, IsPhraseEnd) &&
      Count(es, IsPositionStart) == Count(body, IsPositionStart) && Count(es, IsPositionEnd) == Count(body, IsPositionEnd)
  {
    PrimitivesAtZeroAppend([start], body);
    PrimitivesAtZeroAppend([start] + body, [end]);
    forall p | p in {IsPositionStart, IsPositionEnd, IsPhraseStart, IsPhraseEnd}
      ensures Count([start] + body + [end], p) == Count([start], p) + Count(body, p) + Count([end], p)
    {
      CountAppend([start] + body, [end], p);
      CountAppend([start], body, p);
    }
    CountSingle(start, IsPositionStart);
    CountSingle(start, IsPositionEnd);
    CountSingle(start, IsPhraseStart);
    CountSingle(start, IsPhraseEnd);
    CountSingle(end, IsPositionStart);
    CountSingle(end, IsPositionEnd);
    CountSingle(end, IsPhraseStart);
    CountSingle(end, IsPhraseEnd);
  }

  /** The last position announces all its terms even when every prefix key was already sent and no automaton follows. */
  lemma LastPositionAnnouncesAllTerms(env: Env, q: Query, pathBoost: real, sourceOverride: Option<Query>, t: Trace, fuel: nat)
    requires env.config.flavor.Elasticsearch? && q.MultiPhrasePrefixQuery? && q.termArrays != [] && !env.config.phraseAsTerms
    requires forall term :: term in q.termArrays[|q.termArrays| - 1] ==> BytesKey(term.text) in t.sent
    ensures var r := Flatten(env, q, pathBoost, sourceOverride, t, fuel);
      var n := |q.termArrays| - 1;
      var boost := Times(pathBoost, q.boost);
      r.trace.log == t.log + [StartPhrase(|q.termArrays|, boost)] + PhrasePositions(q.termArrays[..n], sourceOverride) +
        [StartPhrasePosition(|q.termArrays[n]|), EndPhrasePosition, EndPhrase(q.field, q.slop, boost)]
  {
    var n := |q.termArrays| - 1;
    var boost := Times(pathBoost, q.boost);
    var head := [StartPhrase(|q.termArrays|, boost)] + PhrasePositions(q.termArrays[..n], sourceOverride) + [StartPhrasePosition(|q.termArrays[n]|)];
    var started := Append(t, head);
    ExtensionDispatch(env, q, pathBoost, sourceOverride, t, fuel);
    PrefixesAtMostOnePerTerm(env, q.termArrays[n], 0.0, sourceOverride, started);
  }
}
