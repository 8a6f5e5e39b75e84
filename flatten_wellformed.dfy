/**
 * Two properties of every walk, proved by one induction over the flattener:
 *  - the deduplication set only grows, and it grows by exactly as many keys as
 *    automata were sent, so no key ever yields a second automaton;
 *  - when the walk completes, the start and end events it sent are balanced
 *    and properly nested — provided every multi-phrase query it meets has a
 *    term (one with none sends startPhrase but no endPhrase).
 */
module FlattenWellFormed {
  import opened QueryModel
  import opened Events
  import opened FlattenSpec

  /** The events u has beyond t. */
  function Delta(t: Trace, u: Trace): seq<Event>
    requires t.log <= u.log
  {
    u.log[|t.log|..]
  }

  /** u extends t, adding one key per automaton it sent and no other. */
  predicate Grows(t: Trace, u: Trace)
  {
    Extends(t, u) && |u.sent| == |t.sent| + AutomatonCount(Delta(t, u))
  }

  /** What every walk step guarantees; `closed` is the hypothesis under which its events are balanced. */
  predicate WellFormed(t: Trace, o: Outcome, closed: bool)
  {
    Grows(t, o.trace) && (o.failure.None? && closed ==> Balanced(Delta(t, o.trace)))
  }

  // ----- The hypothesis: every multi-phrase query that is walked has a term (MUST_NOT clauses are not walked) -----

  predicate ClosesPhrases(q: Query)
    decreases Size(q), 0
  {
    match q
    case MultiPhraseQuery(termArrays, _, _) => LastField(termArrays).Some?
    case BooleanQuery(clauses, _) => ClausesClosePhrases(clauses)
    case DisjunctionMaxQuery(disjuncts, _) => AllClosePhrases(disjuncts)
    case ConstantScoreQuery(inner, _) => OptionClosesPhrases(inner)
    case FilteredQuery(inner, _) => OptionClosesPhrases(inner)
    case SpanNearQuery(spanClauses, _, _, _) => AllClosePhrases(spanClauses)
    case SpanOrQuery(spanClauses, _) => AllClosePhrases(spanClauses)
    case SpanNotQuery(inc, _, _) => ClosesPhrases(inc)
    case SpanPositionCheckQuery(m, _, _) => ClosesPhrases(m)
    case SpanMultiTermQueryWrapper(wrapped, _) => ClosesPhrases(wrapped)
    case XFilteredQuery(inner, _) => OptionClosesPhrases(inner)
    case FunctionScoreQuery(inner, _) => OptionClosesPhrases(inner)
    case FiltersFunctionScoreQuery(inner, _) => OptionClosesPhrases(inner)
    case _ => true
  }

  predicate AllClosePhrases(qs: seq<Query>)
    decreases ListSize(qs), 1
  {
    qs == [] || (ClosesPhrases(qs[0]) && AllClosePhrases(qs[1..]))
  }

  predicate ClausesClosePhrases(cs: seq<Clause>)
    decreases ClausesSize(cs), 1
  {
    cs == [] || ((cs[0].IsProhibited() || ClosesPhrases(cs[0].query)) && ClausesClosePhrases(cs[1..]))
  }

  predicate OptionClosesPhrases(o: Option<Query>)
    decreases OptionSize(o), 1
  {
    o.None? || ClosesPhrases(o.value)
  }

  /** Every query the reader rewrites to closes its phrases too. */
  ghost predicate ReaderClosesPhrases(env: Env)
  {
    forall x :: env.reader(x).Rewritten? ==> ClosesPhrases(env.reader(x).query)
  }

  // ----- Composition -----

  lemma StepDone(t: Trace, closed: bool)
    ensures WellFormed(t, Done(t), closed)
  {
    assert Delta(t, t) == [];
  }

  /** Appending events with no automaton keeps the set; balanced events stay balanced. */
  lemma StepAppend(t: Trace, es: seq<Event>, closed: bool)
    requires AutomatonCount(es) == 0
    requires closed ==> Balanced(es)
    ensures WellFormed(t, Done(Append(t, es)), closed)
  {
    assert Delta(t, Append(t, es)) == es;
  }

  lemma DeltaSplit(t: Trace, u: Trace, v: Trace)
    requires t.log <= u.log && u.log <= v.log
    ensures Delta(t, v) == Delta(t, u) + Delta(u, v)
  {
    assert u.log == v.log[..|u.log|];
  }

  /** Two well-formed steps in a row make one. */
  lemma StepThen(t: Trace, first: Outcome, second: Outcome, closed: bool)
    requires WellFormed(t, first, closed) && first.failure.None?
    requires WellFormed(first.trace, second, closed)
    ensures WellFormed(t, second, closed)
  {
    DeltaSplit(t, first.trace, second.trace);
    AutomatonCountAppend(Delta(t, first.trace), Delta(first.trace, second.trace));
    if second.failure.None? && closed {
      BalancedConcat(Delta(t, first.trace), Delta(first.trace, second.trace));
    }
  }

  /** A step between a start event and its matching end event. */
  lemma StepBracket(t: Trace, open: Event, o: Outcome, close: Event, closed: bool)
    requires Opens(open).Some? && Closes(close) == Opens(open)
    requires WellFormed(Append(t, [open]), o, closed)
    ensures WellFormed(t, Close(o, close), closed)
  {
    var t1 := Append(t, [open]);
    CountSingle(open, IsAutomaton);
    CountSingle(close, IsAutomaton);
    StepAppend(t, [open], false);
    assert WellFormed(t, o, false) by {
      StepThen(t, Done(t1), o, false);
    }
    if o.failure.None? {
      var inner := Delta(t1, o.trace);
      assert Delta(t, Close(o, close).trace) == [open] + inner + [close] by {
        DeltaSplit(t, t1, o.trace);
        assert Delta(t, t1) == [open];
      }
      AutomatonCountAppend([open] + inner, [close]);
      AutomatonCountAppend([open], inner);
      if closed {
        BalancedWrap(open, inner, close);
      }
    }
  }

  lemma {:induction false} NoAutomata(s: seq<Event>)
    requires forall i :: 0 <= i < |s| ==> !s[i].AutomatonEvent?
    ensures AutomatonCount(s) == 0
    decreases s
  {
    if s != [] {
      NoAutomata(s[1..]);
    }
  }

  /** A sequence of term events sends no automaton and opens nothing. */
  lemma TermsOnly(s: seq<Event>)
    requires forall i :: 0 <= i < |s| ==> s[i].TermEvent?
    ensures Balanced(s) && AutomatonCount(s) == 0
  {
    BalancedNeutral(s);
    NoAutomata(s);
  }

  lemma {:induction false} TermEventsAt(terms: seq<Term>, boost: real, sourceOverride: Option<Query>)
    ensures |TermEvents(terms, boost, sourceOverride)| == |terms|
    ensures forall i :: 0 <= i < |terms| ==> TermEvents(terms, boost, sourceOverride)[i] == TermEvent(terms[i].text, boost, sourceOverride)
    decreases |terms|
  {
    if terms != [] {
      TermEventsAt(terms[..|terms| - 1], boost, sourceOverride);
    }
  }

  lemma PlainTermEvents(terms: seq<Term>, boost: real, sourceOverride: Option<Query>)
    ensures Balanced(TermEvents(terms, boost, sourceOverride)) && AutomatonCount(TermEvents(terms, boost, sourceOverride)) == 0
  {
    TermEventsAt(terms, boost, sourceOverride);
    TermsOnly(TermEvents(terms, boost, sourceOverride));
  }

  lemma {:induction false} PlainAllTermEvents(termArrays: seq<seq<Term>>, boost: real, sourceOverride: Option<Query>)
    ensures Balanced(AllTermEvents(termArrays, boost, sourceOverride))
    ensures AutomatonCount(AllTermEvents(termArrays, boost, sourceOverride)) == 0
    decreases |termArrays|
  {
    if termArrays != [] {
      var init := termArrays[..|termArrays| - 1];
      var last := termArrays[|termArrays| - 1];
      PlainAllTermEvents(init, boost, sourceOverride);
      PlainTermEvents(last, boost, sourceOverride);
      BalancedConcat(AllTermEvents(init, boost, sourceOverride), TermEvents(last, boost, sourceOverride));
      AutomatonCountAppend(AllTermEvents(init, boost, sourceOverride), TermEvents(last, boost, sourceOverride));
    }
  }

  lemma PlainPosition(terms: seq<Term>, sourceOverride: Option<Query>)
    ensures Balanced(PositionEvents(terms, sourceOverride)) && AutomatonCount(PositionEvents(terms, sourceOverride)) == 0
  {
    var inner := TermEvents(terms, 0.0, sourceOverride);
    PlainTermEvents(terms, 0.0, sourceOverride);
    BalancedWrap(StartPhrasePosition(|terms|), inner, EndPhrasePosition);
    AutomatonCountAppend([StartPhrasePosition(|terms|)] + inner, [EndPhrasePosition]);
    AutomatonCountAppend([StartPhrasePosition(|terms|)], inner);
  }

  lemma {:induction false} PlainPhrasePositions(termArrays: seq<seq<Term>>, sourceOverride: Option<Query>)
    ensures Balanced(PhrasePositions(termArrays, sourceOverride))
    ensures AutomatonCount(PhrasePositions(termArrays, sourceOverride)) == 0
    decreases |termArrays|
  {
    if termArrays != [] {
      var init := termArrays[..|termArrays| - 1];
      var last := termArrays[|termArrays| - 1];
      PlainPhrasePositions(init, sourceOverride);
      PlainPosition(last, sourceOverride);
      BalancedConcat(PhrasePositions(init, sourceOverride), PositionEvents(last, sourceOverride));
      AutomatonCountAppend(PhrasePositions(init, sourceOverride), PositionEvents(last, sourceOverride));
    }
  }

  lemma {:induction false} PlainSingleTermPositions(terms: seq<Term>, sourceOverride: Option<Query>)
    ensures Balanced(SingleTermPositions(terms, sourceOverride))
    ensures AutomatonCount(SingleTermPositions(terms, sourceOverride)) == 0
    decreases |terms|
  {
    if terms != [] {
      var init := terms[..|terms| - 1];
      var term := TermEvent(terms[|terms| - 1].text, 0.0, sourceOverride);
      PlainSingleTermPositions(init, sourceOverride);
      TermsOnly([term]);
      BalancedWrap(StartPhrasePosition(1), [term], EndPhrasePosition);
      assert [StartPhrasePosition(1), term, EndPhrasePosition] == [StartPhrasePosition(1)] + [term] + [EndPhrasePosition];
      NoAutomata([StartPhrasePosition(1), term, EndPhrasePosition]);
      BalancedConcat(SingleTermPositions(init, sourceOverride), [StartPhrasePosition(1), term, EndPhrasePosition]);
      AutomatonCountAppend(SingleTermPositions(init, sourceOverride), [StartPhrasePosition(1), term, EndPhrasePosition]);
    }
  }

  /** [start] + body + [end] for a phrase: balanced when the body is, and no automaton beyond the body's. */
  lemma PhraseBracket(start: Event, body: seq<Event>, end: Event)
    requires start.StartPhrase? && end.EndPhrase?
    ensures AutomatonCount([start] + body + [end]) == AutomatonCount(body)
    ensures Balanced(body) ==> Balanced([start] + body + [end])
  {
    CountSingle(start, IsAutomaton);
    CountSingle(end, IsAutomaton);
    AutomatonCountAppend([start] + body, [end]);
    AutomatonCountAppend([start], body);
    if Balanced(body) {
      BalancedWrap(start, body, end);
    }
  }

  // ----- Leaf handlers -----

  lemma {:induction false} StepPhrase(env: Env, q: Query, pathBoost: real, sourceOverride: Option<Query>, t: Trace, closed: bool)
    requires q.PhraseQuery?
    ensures WellFormed(t, Done(FlattenPhraseQuery(env, q, pathBoost, sourceOverride, t)), closed)
  {
    var boost := Times(pathBoost, q.boost);
    if |q.terms| == 0 {
      StepDone(t, closed);
    } else if env.config.phraseAsTerms {
      PlainTermEvents(q.terms, boost, sourceOverride);
      StepAppend(t, TermEvents(q.terms, boost, sourceOverride), closed);
    } else {
      PlainSingleTermPositions(q.terms, sourceOverride);
      PhraseBracket(StartPhrase(|q.terms|, boost), SingleTermPositions(q.terms, sourceOverride), EndPhrase(q.terms[0].field, q.slop, boost));
      StepAppend(t, [StartPhrase(|q.terms|, boost)] + SingleTermPositions(q.terms, sourceOverride) +
                    [EndPhrase(q.terms[0].field, q.slop, boost)], closed);
    }
  }

  lemma StepMultiPhrase(env: Env, q: Query, pathBoost: real, sourceOverride: Option<Query>, t: Trace, closed: bool)
    requires q.MultiPhraseQuery?
    requires closed ==> LastField(q.termArrays).Some?
    ensures WellFormed(t, Done(FlattenMultiPhraseQuery(env, q, pathBoost, sourceOverride, t)), closed)
  {
    var boost := Times(pathBoost, q.boost);
    if env.config.phraseAsTerms {
      PlainAllTermEvents(q.termArrays, boost, sourceOverride);
      StepAppend(t, AllTermEvents(q.termArrays, boost, sourceOverride), closed);
    } else {
      var positions := PhrasePositions(q.termArrays, sourceOverride);
      PlainPhrasePositions(q.termArrays, sourceOverride);
      match LastField(q.termArrays)
      case None =>
        AutomatonCountAppend([StartPhrase(|q.termArrays|, boost)], positions);
        assert [StartPhrase(|q.termArrays|, boost)] + positions + [] == [StartPhrase(|q.termArrays|, boost)] + positions;
        StepAppend(t, [StartPhrase(|q.termArrays|, boost)] + positions + [], closed);
      case Some(field) =>
        PhraseBracket(StartPhrase(|q.termArrays|, boost), positions, EndPhrase(field, q.slop, boost));
        StepAppend(t, [StartPhrase(|q.termArrays|, boost)] + positions + [EndPhrase(field, q.slop, boost)], closed);
    }
  }

  lemma StepSendAutomaton(env: Env, t: Trace, key: Key, automaton: Automaton, boost: real, sourceOverride: Option<Query>)
    ensures var u := SendAutomaton(env.hashes, t, key, automaton, boost, sourceOverride);
      Grows(t, u) && forall i :: 0 <= i < |Delta(t, u)| ==> Delta(t, u)[i] == AutomatonEvent(automaton, boost, SourceId(env.hashes, sourceOverride, key))
  {
    var u := SendAutomaton(env.hashes, t, key, automaton, boost, sourceOverride);
    if key !in t.sent {
      CountSingle(AutomatonEvent(automaton, boost, SourceId(env.hashes, sourceOverride, key)), IsAutomaton);
      assert Delta(t, u) == [AutomatonEvent(automaton, boost, SourceId(env.hashes, sourceOverride, key))];
    } else {
      assert Delta(t, u) == [];
    }
  }

  /** Automata only: prefix handling sends nothing but automata, one per new key. */
  predicate AutomataOnly(s: seq<Event>, boost: real)
  {
    forall i :: 0 <= i < |s| ==> s[i].AutomatonEvent? && s[i].boost == boost
  }

  lemma {:induction false} StepPrefixes(env: Env, terms: seq<Term>, boost: real, sourceOverride: Option<Query>, t: Trace)
    ensures var u := FlattenPrefixes(env.hashes, terms, boost, sourceOverride, t);
      Grows(t, u) && AutomataOnly(Delta(t, u), boost)
    decreases terms
  {
    if terms != [] {
      var t1 := FlattenPrefixQuery(env.hashes, terms[0].text, boost, sourceOverride, t);
      var u := FlattenPrefixes(env.hashes, terms[1..], boost, sourceOverride, t1);
      StepSendAutomaton(env, t, BytesKey(terms[0].text), PrefixAutomaton(terms[0].text), boost, sourceOverride);
      StepPrefixes(env, terms[1..], boost, sourceOverride, t1);
      DeltaSplit(t, t1, u);
      AutomatonCountAppend(Delta(t, t1), Delta(t1, u));
    } else {
      assert Delta(t, t) == [];
    }
  }

  lemma {:induction false} AutomataOnlyNeutral(s: seq<Event>, boost: real)
    requires AutomataOnly(s, boost)
    ensures Balanced(s)
  {
    BalancedNeutral(s);
  }

  /** A phrase whose last position is filled by a step that sends automata only. */
  lemma StepPhraseAroundAutomata(t: Trace, start: Event, early: seq<Event>, open: Event, u: Trace, boost: real, end: Event)
    requires start.StartPhrase? && end.EndPhrase? && open.StartPhrasePosition?
    requires Balanced(early) && AutomatonCount(early) == 0
    requires var started := Append(t, [start] + early + [open]);
      Grows(started, u) && AutomataOnly(Delta(started, u), boost)
    ensures WellFormed(t, Done(Append(u, [EndPhrasePosition, end])), true)
  {
    var started := Append(t, [start] + early + [open]);
    var autos := Delta(started, u);
    var last := [open] + autos + [EndPhrasePosition];
    var body := early + last;
    assert u.log == started.log + autos;
    assert Delta(t, Append(u, [EndPhrasePosition, end])) == [start] + body + [end];
    AutomataOnlyNeutral(autos, boost);
    BalancedWrap(open, autos, EndPhrasePosition);
    BalancedConcat(early, last);
    PhraseBracket(start, body, end);
    AutomatonCountAppend(early, last);
    AutomatonCountAppend([open] + autos, [EndPhrasePosition]);
    AutomatonCountAppend([open], autos);
  }

  lemma StepMultiPhrasePrefix(env: Env, q: Query, pathBoost: real, sourceOverride: Option<Query>, t: Trace, closed: bool)
    requires q.MultiPhrasePrefixQuery?
    ensures WellFormed(t, Done(FlattenMultiPhrasePrefixQuery(env, q, pathBoost, sourceOverride, t)), closed)
  {
    var termArrays := q.termArrays;
    var boost := Times(pathBoost, q.boost);
    if |termArrays| == 0 {
      StepDone(t, closed);
    } else {
      var sizeMinus1 := |termArrays| - 1;
      if env.config.phraseAsTerms {
        var early := AllTermEvents(termArrays[..sizeMinus1], boost, sourceOverride);
        var terms := Append(t, early);
        PlainAllTermEvents(termArrays[..sizeMinus1], boost, sourceOverride);
        StepAppend(t, early, true);
        var u := FlattenPrefixes(env.hashes, termArrays[sizeMinus1], boost, sourceOverride, terms);
        StepPrefixes(env, termArrays[sizeMinus1], boost, sourceOverride, terms);
        AutomataOnlyNeutral(Delta(terms, u), boost);
        StepThen(t, Done(terms), Done(u), true);
        assert WellFormed(t, Done(u), closed);
      } else {
        var early := PhrasePositions(termArrays[..sizeMinus1], sourceOverride);
        var open := StartPhrasePosition(|termArrays[sizeMinus1]|);
        var started := Append(t, [StartPhrase(|termArrays|, boost)] + early + [open]);
        PlainPhrasePositions(termArrays[..sizeMinus1], sourceOverride);
        StepPrefixes(env, termArrays[sizeMinus1], 0.0, sourceOverride, started);
        StepPhraseAroundAutomata(t, StartPhrase(|termArrays|, boost), early, open,
          FlattenPrefixes(env.hashes, termArrays[sizeMinus1], 0.0, sourceOverride, started), 0.0, EndPhrase(q.field, q.slop, boost));
      }
    }
  }

  lemma StepFuzzy(env: Env, q: Query, pathBoost: real, sourceOverride: Option<Query>, t: Trace, closed: bool)
    requires q.FuzzyQuery?
    ensures WellFormed(t, Done(FlattenFuzzyQuery(env, q, pathBoost, sourceOverride, t)), closed)
  {
    var boost := Times(pathBoost, q.boost);
    var termEvent := TermEvent(q.term.text, boost, sourceOverride);
    var t1 := if q.maxEdits == 0 then Append(t, [termEvent]) else t;
    TermsOnly([termEvent]);
    if q.maxEdits == 0 {
      StepAppend(t, [termEvent], closed);
    } else {
      StepDone(t, closed);
    }
    var term := q.term.text;
    if q.prefixLength >= |term| {
      StepAppend(t1, [termEvent], closed);
      StepThen(t, Done(t1), Done(Append(t1, [termEvent])), closed);
    } else {
      var key := FuzzyKey(FuzzyQueryInfo(term, q.maxEdits, q.transpositions, q.prefixLength));
      var automaton := FuzzyAutomaton(term, q.maxEdits, q.transpositions, q.prefixLength);
      var u := SendAutomaton(env.hashes, t1, key, automaton, boost, sourceOverride);
      StepSendAutomaton(env, t1, key, automaton, boost, sourceOverride);
      BalancedNeutral(Delta(t1, u));
      StepThen(t, Done(t1), Done(u), closed);
    }
  }

  lemma StepAutomaton(env: Env, t: Trace, key: Key, automaton: Automaton, boost: real, sourceOverride: Option<Query>, closed: bool)
    ensures WellFormed(t, Done(SendAutomaton(env.hashes, t, key, automaton, boost, sourceOverride)), closed)
  {
    var u := SendAutomaton(env.hashes, t, key, automaton, boost, sourceOverride);
    StepSendAutomaton(env, t, key, automaton, boost, sourceOverride);
    BalancedNeutral(Delta(t, u));
  }

  // ----- The induction over the walk -----

  /** Every walk is well formed; its events are balanced when all its phrases close. */
  lemma {:induction false} FlattenIsWellFormed(env: Env, q: Query, pathBoost: real, sourceOverride: Option<Query>, t: Trace, fuel: nat)
    ensures WellFormed(t, Flatten(env, q, pathBoost, sourceOverride, t, fuel), ClosesPhrases(q) && ReaderClosesPhrases(env))
    decreases fuel, Size(q), 3
  {
    var closed := ClosesPhrases(q) && ReaderClosesPhrases(env);
    if q.TermQuery? {
      TermsOnly([TermEvent(q.term.text, Times(pathBoost, q.boost), sourceOverride)]);
      StepAppend(t, [TermEvent(q.term.text, Times(pathBoost, q.boost), sourceOverride)], closed);
    } else if q.PhraseQuery? {
      StepPhrase(env, q, pathBoost, sourceOverride, t, closed);
    } else if q.BooleanQuery? {
      ClausesAreWellFormed(env, q.clauses, Times(pathBoost, q.boost), sourceOverride, t, fuel);
    } else if q.DisjunctionMaxQuery? {
      EachIsWellFormed(env, q.disjuncts, Times(pathBoost, q.boost), sourceOverride, t, fuel);
    } else if q.ConstantScoreQuery? || q.FilteredQuery? {
      WrappedIsWellFormed(env, q.inner, Times(pathBoost, q.boost), sourceOverride, t, fuel);
    } else if q.MultiPhraseQuery? {
      StepMultiPhrase(env, q, pathBoost, sourceOverride, t, closed);
    } else if q.IsKnownSpan() {
      SpanIsWellFormed(env, q, pathBoost, sourceOverride, t, fuel);
    } else if q.FuzzyQuery? {
      StepFuzzy(env, q, pathBoost, sourceOverride, t, closed);
    } else if q.RegexpQuery? {
      StepAutomaton(env, t, QueryKey(q), RegexpAutomaton(q.term), Times(pathBoost, q.boost), sourceOverride, closed);
    } else if q.WildcardQuery? {
      StepAutomaton(env, t, BytesKey(q.term.text), WildcardAutomaton(q.term), Times(pathBoost, q.boost), sourceOverride, closed);
    } else if q.PrefixQuery? {
      StepAutomaton(env, t, BytesKey(q.term.text), PrefixAutomaton(q.term.text), Times(pathBoost, q.boost), sourceOverride, closed);
    } else if q.CommonTermsQuery? {
      CommonTermsIsWellFormed(env, q, pathBoost, sourceOverride, t, fuel);
    } else if env.config.flavor.Elasticsearch? && q.IsElasticsearchQuery() {
      UnknownIsWellFormed(env, q, pathBoost, sourceOverride, t, fuel);
    } else {
      RewriteIsWellFormed(env, q, pathBoost, sourceOverride, t, fuel);
    }
  }

  lemma StepSpanTerm(t: Trace, term: Term, q: Query, sourceOverride: Option<Query>, closed: bool)
    ensures WellFormed(t, Done(Append(t, [TermEvent(term.text, 0.0, sourceOverride), EndSpanTermQuery(q, |t.log|)])), closed)
  {
    var es := [TermEvent(term.text, 0.0, sourceOverride), EndSpanTermQuery(q, |t.log|)];
    BalancedNeutral(es);
    NoAutomata(es);
    StepAppend(t, es, closed);
  }

  lemma {:induction false} SpanIsWellFormed(env: Env, q: Query, pathBoost: real, sourceOverride: Option<Query>, t: Trace, fuel: nat)
    ensures WellFormed(t, FlattenSpan(env, q, pathBoost, sourceOverride, t, fuel).outcome, ClosesPhrases(q) && ReaderClosesPhrases(env))
    decreases fuel, Size(q), 2
  {
    var closed := ClosesPhrases(q) && ReaderClosesPhrases(env);
    match q
    case SpanTermQuery(term, _) =>
      StepSpanTerm(t, term, q, sourceOverride, closed);
    case SpanPositionCheckQuery(m, _, boost) =>
      SpanIsWellFormed(env, m, Times(pathBoost, boost), sourceOverride, t, fuel);
    case SpanNearQuery(_, _, _, _) =>
      SpanNearIsWellFormed(env, q, pathBoost, sourceOverride, t, fuel);
    case SpanNotQuery(inc, _, boost) =>
      SpanIsWellFormed(env, inc, Times(boost, pathBoost), sourceOverride, t, fuel);
    case SpanOrQuery(_, _) =>
      SpanOrIsWellFormed(env, q, pathBoost, sourceOverride, t, fuel);
    case SpanMultiTermQueryWrapper(_, _) =>
      SpanMultiIsWellFormed(env, q, pathBoost, sourceOverride, t, fuel);
    case _ =>
      StepDone(t, closed);
  }

  lemma {:induction false} SpanNearIsWellFormed(env: Env, q: Query, pathBoost: real, sourceOverride: Option<Query>, t: Trace, fuel: nat)
    requires q.SpanNearQuery?
    ensures WellFormed(t, FlattenSpan(env, q, pathBoost, sourceOverride, t, fuel).outcome, ClosesPhrases(q) && ReaderClosesPhrases(env))
    decreases fuel, Size(q), 1
  {
    var t1 := Append(t, [StartSpanNearQuery(q)]);
    var boost := Times(pathBoost, q.boost);
    SpanClausesAreWellFormed(env, q.spanClauses, boost, sourceOverride, t1, fuel);
    StepBracket(t, StartSpanNearQuery(q), FlattenSpanClauses(env, q.spanClauses, boost, sourceOverride, t1, fuel),
      EndSpanNearQuery(q), ClosesPhrases(q) && ReaderClosesPhrases(env));
  }

  lemma {:induction false} SpanOrIsWellFormed(env: Env, q: Query, pathBoost: real, sourceOverride: Option<Query>, t: Trace, fuel: nat)
    requires q.SpanOrQuery?
    ensures WellFormed(t, FlattenSpan(env, q, pathBoost, sourceOverride, t, fuel).outcome, ClosesPhrases(q) && ReaderClosesPhrases(env))
    decreases fuel, Size(q), 1
  {
    var t1 := Append(t, [StartSpanOrQuery(q)]);
    var boost := Times(pathBoost, q.boost);
    SpanClausesAreWellFormed(env, q.spanClauses, boost, sourceOverride, t1, fuel);
    StepBracket(t, StartSpanOrQuery(q), FlattenSpanClauses(env, q.spanClauses, boost, sourceOverride, t1, fuel),
      EndSpanOrQuery(q), ClosesPhrases(q) && ReaderClosesPhrases(env));
  }

  lemma {:induction false} SpanMultiIsWellFormed(env: Env, q: Query, pathBoost: real, sourceOverride: Option<Query>, t: Trace, fuel: nat)
    requires q.SpanMultiTermQueryWrapper?
    ensures WellFormed(t, FlattenSpan(env, q, pathBoost, sourceOverride, t, fuel).outcome, ClosesPhrases(q) && ReaderClosesPhrases(env))
    decreases fuel, Size(q), 1
  {
    var t1 := Append(t, [StartSpanMultiQuery(q)]);
    var boost := Times(pathBoost, q.boost);
    FlattenIsWellFormed(env, q.wrapped, boost, sourceOverride, t1, fuel);
    StepBracket(t, StartSpanMultiQuery(q), Flatten(env, q.wrapped, boost, sourceOverride, t1, fuel),
      EndSpanMultiQuery(q), ClosesPhrases(q) && ReaderClosesPhrases(env));
  }

  lemma {:induction false} UnknownIsWellFormed(env: Env, q: Query, pathBoost: real, sourceOverride: Option<Query>, t: Trace, fuel: nat)
    ensures WellFormed(t, FlattenUnknown(env, q, pathBoost, sourceOverride, t, fuel).outcome, ClosesPhrases(q) && ReaderClosesPhrases(env))
    decreases fuel, Size(q), 1
  {
    var closed := ClosesPhrases(q) && ReaderClosesPhrases(env);
    if env.config.flavor.Lucene? {
      StepDone(t, closed);
    } else if q.XFilteredQuery? || q.FunctionScoreQuery? || q.FiltersFunctionScoreQuery? {
      WrappedIsWellFormed(env, q.inner, Times(pathBoost, q.boost), sourceOverride, t, fuel);
    } else if q.MultiPhrasePrefixQuery? {
      StepMultiPhrasePrefix(env, q, pathBoost, sourceOverride, t, closed);
    } else {
      StepDone(t, closed);
    }
  }

  lemma {:induction false} RewriteIsWellFormed(env: Env, q: Query, pathBoost: real, sourceOverride: Option<Query>, t: Trace, fuel: nat)
    ensures WellFormed(t, RewriteAndFlatten(env, q, pathBoost, sourceOverride, t, fuel), ClosesPhrases(q) && ReaderClosesPhrases(env))
    decreases fuel, Size(q), 1
  {
    var closed := ClosesPhrases(q) && ReaderClosesPhrases(env);
    match RewriteQuery(env, q)
    case RewriteFailed => StepDone(t, closed);
    case SameQuery => StepDone(t, closed);
    case NewQuery(rewritten) =>
      if fuel == 0 {
        StepDone(t, closed);
      } else {
        RewrittenClosesPhrases(env, q);
        FlattenIsWellFormed(env, rewritten, pathBoost, Some(q), t, fuel - 1);
      }
  }

  /** Whatever a rewrite yields closes its phrases when the reader's results do. */
  lemma RewrittenClosesPhrases(env: Env, q: Query)
    requires RewriteQuery(env, q).NewQuery?
    ensures ReaderClosesPhrases(env) && (q.CommonTermsQuery? || q.OtherMultiTermQuery? || ClosesPhrases(q)) ==> ClosesPhrases(RewriteQuery(env, q).query)
  {
    if ReaderClosesPhrases(env) {
      var x := BoundedForRewrite(env.config, q);
      if env.reader(x).Rewritten? {
        assert ClosesPhrases(env.reader(x).query);
      }
    }
  }

  lemma {:induction false} CommonTermsIsWellFormed(env: Env, q: Query, pathBoost: real, sourceOverride: Option<Query>, t: Trace, fuel: nat)
    requires q.CommonTermsQuery?
    ensures WellFormed(t, FlattenCommonTermsQuery(env, q, pathBoost, sourceOverride, t, fuel), ClosesPhrases(q) && ReaderClosesPhrases(env))
    decreases fuel, Size(q), 1
  {
    var closed := ClosesPhrases(q) && ReaderClosesPhrases(env);
    var rewrite := RewriteQuery(env, q);
    if rewrite.RewriteFailed? || fuel == 0 {
      StepDone(t, closed);
    } else {
      var rewritten := if rewrite.NewQuery? then rewrite.query else q;
      if rewrite.NewQuery? {
        RewrittenClosesPhrases(env, q);
      }
      var closedAfter := ClosesPhrases(rewritten) && ReaderClosesPhrases(env);
      assert closed ==> closedAfter;
      if !env.config.removeHighFrequencyTermsFromCommonTerms || !rewritten.BooleanQuery? {
        FlattenIsWellFormed(env, rewritten, pathBoost, sourceOverride, t, fuel - 1);
      } else if HighFrequencySplit(rewritten) {
        var low := rewritten.clauses[1].query;
        assert ClosesPhrases(rewritten) ==> ClosesPhrases(low) by {
          var cs := rewritten.clauses;
          if ClosesPhrases(rewritten) {
            assert ClausesClosePhrases(cs);
            assert cs != [];
            assert ClausesClosePhrases(cs[1..]);
            assert cs[1..][0] == cs[1];
          }
        }
        ClausesAreWellFormed(env, low.clauses, Times(pathBoost, low.boost), sourceOverride, t, fuel - 1);
      } else {
        ClausesAreWellFormed(env, rewritten.clauses, Times(pathBoost, rewritten.boost), sourceOverride, t, fuel - 1);
      }
    }
  }

  lemma {:induction false} ClausesAreWellFormed(env: Env, clauses: seq<Clause>, boost: real, sourceOverride: Option<Query>, t: Trace, fuel: nat)
    ensures WellFormed(t, FlattenClauses(env, clauses, boost, sourceOverride, t, fuel), ClausesClosePhrases(clauses) && ReaderClosesPhrases(env))
    decreases fuel, ClausesSize(clauses), 4
  {
    var closed := ClausesClosePhrases(clauses) && ReaderClosesPhrases(env);
    if clauses == [] {
      StepDone(t, closed);
    } else if clauses[0].IsProhibited() {
      ClausesAreWellFormed(env, clauses[1..], boost, sourceOverride, t, fuel);
    } else {
      var o := Flatten(env, clauses[0].query, boost, sourceOverride, t, fuel);
      FlattenIsWellFormed(env, clauses[0].query, boost, sourceOverride, t, fuel);
      if o.failure.None? {
        ClausesAreWellFormed(env, clauses[1..], boost, sourceOverride, o.trace, fuel);
        StepThen(t, o, FlattenClauses(env, clauses[1..], boost, sourceOverride, o.trace, fuel), closed);
      }
    }
  }

  lemma {:induction false} EachIsWellFormed(env: Env, qs: seq<Query>, boost: real, sourceOverride: Option<Query>, t: Trace, fuel: nat)
    ensures WellFormed(t, FlattenEach(env, qs, boost, sourceOverride, t, fuel), AllClosePhrases(qs) && ReaderClosesPhrases(env))
    decreases fuel, ListSize(qs), 4
  {
    var closed := AllClosePhrases(qs) && ReaderClosesPhrases(env);
    if qs == [] {
      StepDone(t, closed);
    } else {
      var o := Flatten(env, qs[0], boost, sourceOverride, t, fuel);
      FlattenIsWellFormed(env, qs[0], boost, sourceOverride, t, fuel);
      if o.failure.None? {
        EachIsWellFormed(env, qs[1..], boost, sourceOverride, o.trace, fuel);
        StepThen(t, o, FlattenEach(env, qs[1..], boost, sourceOverride, o.trace, fuel), closed);
      }
    }
  }

  lemma {:induction false} SpanClausesAreWellFormed(env: Env, qs: seq<Query>, boost: real, sourceOverride: Option<Query>, t: Trace, fuel: nat)
    ensures WellFormed(t, FlattenSpanClauses(env, qs, boost, sourceOverride, t, fuel), AllClosePhrases(qs) && ReaderClosesPhrases(env))
    decreases fuel, ListSize(qs), 4
  {
    var closed := AllClosePhrases(qs) && ReaderClosesPhrases(env);
    if qs == [] {
      StepDone(t, closed);
    } else {
      var o := FlattenSpan(env, qs[0], boost, sourceOverride, t, fuel).outcome;
      SpanIsWellFormed(env, qs[0], boost, sourceOverride, t, fuel);
      if o.failure.None? {
        SpanClausesAreWellFormed(env, qs[1..], boost, sourceOverride, o.trace, fuel);
        StepThen(t, o, FlattenSpanClauses(env, qs[1..], boost, sourceOverride, o.trace, fuel), closed);
      }
    }
  }

  lemma {:induction false} WrappedIsWellFormed(env: Env, inner: Option<Query>, boost: real, sourceOverride: Option<Query>, t: Trace, fuel: nat)
    ensures WellFormed(t, FlattenWrapped(env, inner, boost, sourceOverride, t, fuel), OptionClosesPhrases(inner) && ReaderClosesPhrases(env))
    decreases fuel, OptionSize(inner), 4
  {
    match inner
    case None => StepDone(t, OptionClosesPhrases(inner) && ReaderClosesPhrases(env));
    case Some(query) => FlattenIsWellFormed(env, query, boost, sourceOverride, t, fuel);
  }

  // ----- The walk from the start -----

  const Start: Trace := Trace([], {})

  /**
   * Every walk from an empty log sends one automaton per distinct key:
   * sentAutomata ends up with exactly as many keys as automata were sent.
   * A walk that completes, over queries and rewrites whose multi-phrase
   * queries all have terms, sends balanced, properly nested start and end
   * events.
   */
  lemma WalkIsWellFormed(env: Env, q: Query, fuel: nat)
    ensures var r := Flatten(env, q, 1.0, None, Start, fuel);
      |r.trace.sent| == AutomatonCount(r.trace.log) &&
      (ClosesPhrases(q) && ReaderClosesPhrases(env) && r.failure.None? ==> Balanced(r.trace.log))
  {
    var r := Flatten(env, q, 1.0, None, Start, fuel);
    FlattenIsWellFormed(env, q, 1.0, None, Start, fuel);
    assert Delta(Start, r.trace) == r.trace.log;
  }

  /** Without the hypothesis balance fails: a multi-phrase query with no positions opens a phrase it never closes. */
  lemma EmptyMultiPhraseLeavesPhraseOpen(env: Env, slop: int, boost: real, fuel: nat)
    requires !env.config.phraseAsTerms
    ensures var r := Flatten(env, MultiPhraseQuery([], slop, boost), 1.0, None, Start, fuel);
      r.failure.None? && r.trace.log == [StartPhrase(0, Times(1.0, boost))] && !Balanced(r.trace.log)
  {
    var e := StartPhrase(0, Times(1.0, boost));
    assert Nest([e], []) == Some([PhraseMarker]) by {
      assert [e][1..] == [];
      assert [] + [PhraseMarker] == [PhraseMarker];
    }
  }
}
