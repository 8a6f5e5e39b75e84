/**
 * The calls the flattener makes on its Callback, recorded in order as events,
 * and what it means for the structural markers among them to be balanced.
 */
module Events {
  import opened QueryModel

  /** One call on the Callback interface. */
  datatype Event =
    | TermEvent(text: string, boost: real, sourceOverride: Option<Query>)   // flattened(BytesRef, float, Object)
    | AutomatonEvent(automaton: Automaton, boost: real, source: int)       // flattened(Automaton, float, int)
    | StartPhrase(positionCount: nat, boost: real)
    | StartPhrasePosition(termCount: nat)
    | EndPhrasePosition
    | EndPhrase(field: string, slop: int, boost: real)
    | EndSpanTermQuery(query: Query, source: int)
    | StartSpanNearQuery(query: Query)
    | EndSpanNearQuery(query: Query)
    | StartSpanMultiQuery(query: Query)
    | EndSpanMultiQuery(query: Query)
    | StartSpanOrQuery(query: Query)
    | EndSpanOrQuery(query: Query)
  {
    /** A term or an automaton: the events that carry something to highlight. */
    predicate IsPrimitive() { TermEvent? || AutomatonEvent? }
  }

  /** The kinds of bracket an event can open or close. */
  datatype Marker =
    | PhraseMarker
    | PositionMarker
    | SpanNearMarker(query: Query)
    | SpanOrMarker(query: Query)
    | SpanMultiMarker(query: Query)

  function Opens(e: Event): Option<Marker>
  {
    match e
    case StartPhrase(_, _) => Some(PhraseMarker)
    case StartPhrasePosition(_) => Some(PositionMarker)
    case StartSpanNearQuery(q) => Some(SpanNearMarker(q))
    case StartSpanOrQuery(q) => Some(SpanOrMarker(q))
    case StartSpanMultiQuery(q) => Some(SpanMultiMarker(q))
    case _ => None
  }

  function Closes(e: Event): Option<Marker>
  {
    match e
    case EndPhrase(_, _, _) => Some(PhraseMarker)
    case EndPhrasePosition => Some(PositionMarker)
    case EndSpanNearQuery(q) => Some(SpanNearMarker(q))
    case EndSpanOrQuery(q) => Some(SpanOrMarker(q))
    case EndSpanMultiQuery(q) => Some(SpanMultiMarker(q))
    case _ => None
  }

  /** Events that neither open nor close a bracket. */
  predicate Neutral(e: Event) { Opens(e).None? && Closes(e).None? }

  /**
   * Reads the events left to right with a stack of open brackets (innermost
   * last). None when an event closes a bracket other than the innermost open one.
   */
  function Nest(s: seq<Event>, stack: seq<Marker>): Option<seq<Marker>>
  {
    if s == [] then Some(stack)
    else if Opens(s[0]).Some? then Nest(s[1..], stack + [Opens(s[0]).value])
    else if Closes(s[0]).Some? then
      if stack != [] && stack[|stack| - 1] == Closes(s[0]).value then Nest(s[1..], stack[..|stack| - 1])
      else None
    else Nest(s[1..], stack)
  }

  /** Every start event has exactly one matching end event, properly nested. */
  predicate Balanced(s: seq<Event>) { Nest(s, []) == Some([]) }

  /** How many events of s satisfy p. */
  function Count(s: seq<Event>, p: Event -> bool): nat
  {
    if s == [] then 0 else (if p(s[0]) then 1 else 0) + Count(s[1..], p)
  }

  predicate IsAutomaton(e: Event) { e.AutomatonEvent? }
  predicate IsPhraseStart(e: Event) { e.StartPhrase? }
  predicate IsPhraseEnd(e: Event) { e.EndPhrase? }
  predicate IsPositionStart(e: Event) { e.StartPhrasePosition? }
  predicate IsPositionEnd(e: Event) { e.EndPhrasePosition? }

  function AutomatonCount(s: seq<Event>): nat
  {
    Count(s, IsAutomaton)
  }

  /** Reading a sequence of events on top of extra open brackets leaves them untouched. */
  lemma {:induction false} NestFrame(s: seq<Event>, stack: seq<Marker>, base: seq<Marker>)
    requires Nest(s, stack).Some?
    ensures Nest(s, base + stack) == Some(base + Nest(s, stack).value)
    decreases s
  {
    if s == [] {
    } else if Opens(s[0]).Some? {
      assert base + stack + [Opens(s[0]).value] == base + (stack + [Opens(s[0]).value]);
      NestFrame(s[1..], stack + [Opens(s[0]).value], base);
    } else if Closes(s[0]).Some? {
      assert (base + stack)[..|base + stack| - 1] == base + stack[..|stack| - 1];
      NestFrame(s[1..], stack[..|stack| - 1], base);
    } else {
      NestFrame(s[1..], stack, base);
    }
  }

  /** Reading a + b is reading a, then reading b from where a left the stack. */
  lemma {:induction false} NestAppend(a: seq<Event>, b: seq<Event>, stack: seq<Marker>)
    ensures Nest(a + b, stack) == if Nest(a, stack).None? then None else Nest(b, Nest(a, stack).value)
    decreases a
  {
    if a == [] {
      assert a + b == b;
    } else {
      assert (a + b)[0] == a[0] && (a + b)[1..] == a[1..] + b;
      if Opens(a[0]).Some? {
        NestAppend(a[1..], b, stack + [Opens(a[0]).value]);
      } else if Closes(a[0]).Some? {
        if stack != [] && stack[|stack| - 1] == Closes(a[0]).value {
          NestAppend(a[1..], b, stack[..|stack| - 1]);
        }
      } else {
        NestAppend(a[1..], b, stack);
      }
    }
  }

  lemma BalancedEmpty()
    ensures Balanced([])
  {
  }

  /** Balanced event sequences are closed under concatenation. */
  lemma BalancedConcat(a: seq<Event>, b: seq<Event>)
    requires Balanced(a) && Balanced(b)
    ensures Balanced(a + b)
  {
    NestAppend(a, b, []);
  }

  /** A balanced sequence between a matching start and end is balanced. */
  lemma BalancedWrap(open: Event, s: seq<Event>, close: Event)
    requires Opens(open).Some? && Closes(close) == Opens(open)
    requires Balanced(s)
    ensures Balanced([open] + s + [close])
  {
    var m := Opens(open).value;
    NestFrame(s, [], [m]);
    assert [m] + [] == [m];
    assert Nest([open], []) == Some([m]) by {
      assert [open][1..] == [];
      assert [] + [m] == [m];
    }
    NestAppend([open], s, []);
    assert Nest([open] + s, []) == Some([m]);
    assert Nest([close], [m]) == Some([]) by {
      assert [close][1..] == [];
      assert [m][..0] == [];
    }
    NestAppend([open] + s, [close], []);
  }

  /** A sequence of neutral events is balanced. */
  lemma {:induction false} BalancedNeutral(s: seq<Event>)
    requires forall i :: 0 <= i < |s| ==> Neutral(s[i])
    ensures Balanced(s)
    decreases s
  {
    if s != [] {
      BalancedNeutral(s[1..]);
    }
  }

  lemma {:induction false} CountAppend(a: seq<Event>, b: seq<Event>, p: Event -> bool)
    ensures Count(a + b, p) == Count(a, p) + Count(b, p)
    decreases a
  {
    if a == [] {
      assert a + b == b;
    } else {
      assert (a + b)[0] == a[0] && (a + b)[1..] == a[1..] + b;
      CountAppend(a[1..], b, p);
    }
  }

  lemma CountSingle(e: Event, p: Event -> bool)
    ensures Count([e], p) == if p(e) then 1 else 0
  {
    assert [e][1..] == [];
  }

  lemma AutomatonCountAppend(a: seq<Event>, b: seq<Event>)
    ensures AutomatonCount(a + b) == AutomatonCount(a) + AutomatonCount(b)
  {
    CountAppend(a, b, IsAutomaton);
  }
}
