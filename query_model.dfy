/**
 * The values the query flattener works on: Lucene/Elasticsearch query trees,
 * terms, the opaque automata the flattener builds, and the keys of its
 * deduplication set.
 */
module QueryModel {

  datatype Option<T> = None | Some(value: T)

  /** A term: the field it belongs to and its text (the term's bytes, decoded). */
  datatype Term = Term(field: string, text: string)

  /** BooleanClause.Occur; a clause is prohibited exactly when it is MUST_NOT. */
  datatype Occur = Must | Should | MustNot

  datatype Clause = Clause(query: Query, occur: Occur)
  {
    predicate IsProhibited() { occur == MustNot }
  }

  /** The rewrite strategy of a multi-term query. */
  datatype RewriteMethod = DefaultRewrite | TopTermsScoringBooleanRewrite(size: int)

  /**
   * The query variants the flattener distinguishes. Every variant carries the
   * query's own boost. The three Other* variants stand for every class the
   * flattener does not recognise: a span query, a multi-term query, or any
   * other query; `id` tells such instances apart.
   */
  datatype Query =
    | TermQuery(term: Term, boost: real)
    | PhraseQuery(terms: seq<Term>, slop: int, boost: real)
    | BooleanQuery(clauses: seq<Clause>, boost: real)
    | DisjunctionMaxQuery(disjuncts: seq<Query>, boost: real)
    | ConstantScoreQuery(inner: Option<Query>, boost: real)
    | FilteredQuery(inner: Option<Query>, boost: real)
    | MultiPhraseQuery(termArrays: seq<seq<Term>>, slop: int, boost: real)
    | SpanTermQuery(term: Term, boost: real)
    | SpanNearQuery(spanClauses: seq<Query>, slop: int, inOrder: bool, boost: real)
    | SpanOrQuery(spanClauses: seq<Query>, boost: real)
    | SpanNotQuery(includeQuery: Query, excludeQuery: Query, boost: real)
    | SpanPositionCheckQuery(matchQuery: Query, end: int, boost: real)
    | SpanMultiTermQueryWrapper(wrapped: Query, boost: real)
    | OtherSpanQuery(id: nat, boost: real)
    | FuzzyQuery(term: Term, maxEdits: nat, prefixLength: nat, transpositions: bool, boost: real)
    | RegexpQuery(term: Term, boost: real)
    | WildcardQuery(term: Term, boost: real)
    | PrefixQuery(term: Term, boost: real)
    | CommonTermsQuery(terms: seq<Term>, boost: real)
    | OtherMultiTermQuery(id: nat, rewriteMethod: RewriteMethod, boost: real)
    | OtherQuery(id: nat, boost: real)
      // the four classes added by the Elasticsearch plugin
    | XFilteredQuery(inner: Option<Query>, boost: real)
    | MultiPhrasePrefixQuery(field: string, termArrays: seq<seq<Term>>, slop: int, boost: real)
    | FunctionScoreQuery(inner: Option<Query>, boost: real)
    | FiltersFunctionScoreQuery(inner: Option<Query>, boost: real)
  {
    /** `instanceof SpanQuery` */
    predicate IsSpan() {
      SpanTermQuery? || SpanNearQuery? || SpanOrQuery? || SpanNotQuery? ||
      SpanPositionCheckQuery? || SpanMultiTermQueryWrapper? || OtherSpanQuery?
    }

    /** The span classes that flattenSpan recognises. */
    predicate IsKnownSpan() { IsSpan() && !OtherSpanQuery? }

    /** The classes the Elasticsearch flattener's extension hook recognises. */
    predicate IsElasticsearchQuery() {
      XFilteredQuery? || MultiPhrasePrefixQuery? || FunctionScoreQuery? || FiltersFunctionScoreQuery?
    }
  }

  /** A size measure on query trees, used to show that the walk terminates. */
  function Size(q: Query): (n: nat)
    ensures 1 <= n
  {
    match q
    case BooleanQuery(clauses, _) => 1 + ClausesSize(clauses)
    case DisjunctionMaxQuery(disjuncts, _) => 1 + ListSize(disjuncts)
    case ConstantScoreQuery(inner, _) => 1 + OptionSize(inner)
    case FilteredQuery(inner, _) => 1 + OptionSize(inner)
    case SpanNearQuery(spanClauses, _, _, _) => 1 + ListSize(spanClauses)
    case SpanOrQuery(spanClauses, _) => 1 + ListSize(spanClauses)
    case SpanNotQuery(inc, exc, _) => 1 + Size(inc) + Size(exc)
    case SpanPositionCheckQuery(m, _, _) => 1 + Size(m)
    case SpanMultiTermQueryWrapper(wrapped, _) => 1 + Size(wrapped)
    case XFilteredQuery(inner, _) => 1 + OptionSize(inner)
    case FunctionScoreQuery(inner, _) => 1 + OptionSize(inner)
    case FiltersFunctionScoreQuery(inner, _) => 1 + OptionSize(inner)
    case _ => 1
  }

  function ListSize(qs: seq<Query>): nat
  {
    if qs == [] then 0 else Size(qs[0]) + ListSize(qs[1..])
  }

  function ClausesSize(cs: seq<Clause>): nat
  {
    if cs == [] then 0 else ClauseSize(cs[0]) + ClausesSize(cs[1..])
  }

  function ClauseSize(c: Clause): (n: nat)
    ensures n == Size(c.query)
  {
    Size(c.query)
  }

  function OptionSize(o: Option<Query>): nat
  {
    match o
    case None => 0
    case Some(q) => Size(q)
  }

  /** A clause's query is no larger than the clauses it is one of. */
  lemma {:induction false} ClauseSizeBound(clauses: seq<Clause>, i: nat)
    requires i < |clauses|
    ensures Size(clauses[i].query) <= ClausesSize(clauses)
    decreases i
  {
    if i > 0 {
      ClauseSizeBound(clauses[1..], i - 1);
    }
  }

  /** A query in a list is no larger than the list. */
  lemma {:induction false} ListSizeBound(qs: seq<Query>, i: nat)
    requires i < |qs|
    ensures Size(qs[i]) <= ListSize(qs)
    decreases i
  {
    if i > 0 {
      ListSizeBound(qs[1..], i - 1);
    }
  }

  /**
   * The automata the flattener hands to its callback. They are built by Lucene;
   * here each construction is a constructor that carries its inputs.
   */
  datatype Automaton =
    | StringAutomaton(s: string)                                        // Automata.makeString
    | AnyStringAutomaton                                                // Automata.makeAnyString
    | Concatenation(first: Automaton, second: Automaton)                // Operations.concatenate
    | LevenshteinAutomaton(s: string, transpositions: bool, distance: nat) // LevenshteinAutomata.toAutomaton
    | RegexpAutomaton(pattern: Term)                                    // RegexpQuery.getAutomaton
    | WildcardAutomaton(pattern: Term)                                  // WildcardQuery.getAutomaton

  /** The key of a fuzzy query in the deduplication set. */
  datatype FuzzyQueryInfo = FuzzyQueryInfo(term: string, maxEdits: nat, transpositions: bool, prefixLength: nat)

  /**
   * What the deduplication set holds, and what a source hash is taken of: a
   * query object (regexp queries, source overrides), the bytes of a term
   * (wildcard and prefix queries share this space) or a fuzzy-query key.
   */
  datatype Key = QueryKey(query: Query) | BytesKey(bytes: string) | FuzzyKey(info: FuzzyQueryInfo)

  /** The Java runtime's hashCode of a query, of a byte string and of a String. */
  datatype Hashes = Hashes(ofQuery: Query -> int, ofBytes: string -> int, ofString: string -> int)

  const TWO_TO_32: int := 0x1_0000_0000
  const TWO_TO_31: int := 0x8000_0000

  /** Java `int` arithmetic: the value of x wrapped into 32-bit two's complement. */
  function Int32(x: int): (r: int)
    ensures -TWO_TO_31 <= r < TWO_TO_31
    ensures (x - r) % TWO_TO_32 == 0
  {
    (x + TWO_TO_31) % TWO_TO_32 - TWO_TO_31
  }

  /** FuzzyQueryInfo.hashCode: the 31-multiplier combination of its four fields. */
  function FuzzyQueryInfoHash(info: FuzzyQueryInfo, stringHash: string -> int): (r: int)
    ensures -TWO_TO_31 <= r < TWO_TO_31
  {
    var prime := 31;
    var result := 1;
    var result := Int32(prime * result + info.maxEdits);
    var result := Int32(prime * result + info.prefixLength);
    var result := Int32(prime * result + stringHash(info.term));
    Int32(prime * result + (if info.transpositions then 1231 else 1237))
  }

  /** FuzzyQueryInfo.equals: field-by-field comparison. */
  function FuzzyQueryInfoEquals(a: FuzzyQueryInfo, b: FuzzyQueryInfo): (r: bool)
    ensures r <==> a == b
  {
    a.maxEdits == b.maxEdits && a.prefixLength == b.prefixLength &&
    a.term == b.term && a.transpositions == b.transpositions
  }

  /** The hashCode of a key, as Java computes it for each kind of object. */
  function KeyHash(h: Hashes, k: Key): int
  {
    match k
    case QueryKey(q) => h.ofQuery(q)
    case BytesKey(b) => h.ofBytes(b)
    case FuzzyKey(info) => FuzzyQueryInfoHash(info, h.ofString)
  }

  /** Int32 is the only 32-bit value congruent to x modulo 2^32. */
  lemma Int32Unique(x: int, r: int)
    requires -TWO_TO_31 <= r < TWO_TO_31 && (x - r) % TWO_TO_32 == 0
    ensures Int32(x) == r
  {
    var s := Int32(x);
    var k := (x - r) / TWO_TO_32;
    var j := (x - s) / TWO_TO_32;
    assert x - r == k * TWO_TO_32;
    assert x - s == j * TWO_TO_32;
    assert r - s == (j - k) * TWO_TO_32;
  }

  /** Wrapping one step of a 31-multiplier combination early changes nothing after the next wrap. */
  lemma Int32Step(x: int, y: int)
    ensures Int32(31 * Int32(x) + y) == Int32(31 * x + y)
  {
    var r := Int32(x);
    var k := (x - r) / TWO_TO_32;
    assert x - r == k * TWO_TO_32;
    var s := Int32(31 * r + y);
    var j := (31 * r + y - s) / TWO_TO_32;
    assert 31 * r + y - s == j * TWO_TO_32;
    assert 31 * x + y - s == (31 * k + j) * TWO_TO_32;
    Int32Unique(31 * x + y, s);
  }

  /**
   * The step-wise wrapping of FuzzyQueryInfo.hashCode is Java's int value of
   * the exact 31-polynomial over the four fields.
   */
  lemma FuzzyQueryInfoHashIsPolynomial(info: FuzzyQueryInfo, stringHash: string -> int)
    ensures FuzzyQueryInfoHash(info, stringHash) ==
      Int32(31 * 31 * 31 * 31 + 31 * 31 * 31 * info.maxEdits + 31 * 31 * info.prefixLength +
            31 * stringHash(info.term) + (if info.transpositions then 1231 else 1237))
  {
    var x1 := 31 + info.maxEdits;
    var x2 := 31 * x1 + info.prefixLength;
    var x3 := 31 * x2 + stringHash(info.term);
    Int32Step(x1, info.prefixLength);
    Int32Step(x2, stringHash(info.term));
    Int32Step(x3, if info.transpositions then 1231 else 1237);
  }

  /** Keys that equals() identifies hash alike, so HashSet deduplication is by value. */
  lemma EqualKeysHashAlike(h: Hashes, a: FuzzyQueryInfo, b: FuzzyQueryInfo)
    requires FuzzyQueryInfoEquals(a, b)
    ensures KeyHash(h, FuzzyKey(a)) == KeyHash(h, FuzzyKey(b))
  {
  }
}
