/**
 * Search filters.  The Elasticsearch DSL objects the generators build are
 * modelled as a small expression tree, and its meaning over an indexed
 * document as `Matches`: a document maps each field to the set of values it
 * holds, and a `match` or `term` leaf holds when the field holds the value.
 */
module Queries {

  /** A value stored in an indexed field. */
  datatype Value = Text(text: string) | Flag(flag: bool) | Identity(scheme: string, id: string)

  datatype Query =
    | MatchAll                            // Q("match_all"), and Q()
    | Match(field: string, text: string)  // Q("match", field=text)
    | Term(field: string, value: Value)   // Q("term", field=value)
    | Not(negated: Query)                 // ~q
    | And(left: Query, right: Query)      // q1 & q2, q1 + q2
    | Or(left: Query, right: Query)       // q1 | q2

  /** An indexed document: field name to the values it holds. */
  type Document = map<string, set<Value>>

  predicate HasValue(d: Document, field: string, v: Value) {
    field in d && v in d[field]
  }

  predicate HasText(d: Document, field: string, s: string) {
    HasValue(d, field, Text(s))
  }

  predicate Matches(q: Query, d: Document) {
    match q
    case MatchAll => true
    case Match(f, s) => HasText(d, f, s)
    case Term(f, v) => HasValue(d, f, v)
    case Not(p) => !Matches(p, d)
    case And(l, r) => Matches(l, d) && Matches(r, d)
    case Or(l, r) => Matches(l, d) || Matches(r, d)
  }

  /** `reduce(operator.or_, qs)`: the left fold ((q1 | q2) | ...) | qn. */
  function OrAll(qs: seq<Query>): Query
    requires |qs| > 0
  {
    if |qs| == 1 then qs[0] else Or(OrAll(qs[..|qs| - 1]), qs[|qs| - 1])
  }

  /** `reduce(operator.and_, qs)`: the left fold ((q1 & q2) & ...) & qn. */
  function AndAll(qs: seq<Query>): Query
    requires |qs| > 0
  {
    if |qs| == 1 then qs[0] else And(AndAll(qs[..|qs| - 1]), qs[|qs| - 1])
  }

  /** A document matches the disjunction iff it matches one of its parts. */
  lemma {:induction false} OrAllMatches(qs: seq<Query>, d: Document)
    requires |qs| > 0
    ensures Matches(OrAll(qs), d) <==> exists i | 0 <= i < |qs| :: Matches(qs[i], d)
  {
    if |qs| > 1 {
      var front := qs[..|qs| - 1];
      OrAllMatches(front, d);
      assert forall i | 0 <= i < |front| :: front[i] == qs[i];
    }
  }

  /** A document matches the conjunction iff it matches every part. */
  lemma {:induction false} AndAllMatches(qs: seq<Query>, d: Document)
    requires |qs| > 0
    ensures Matches(AndAll(qs), d) <==> forall i | 0 <= i < |qs| :: Matches(qs[i], d)
  {
    if |qs| > 1 {
      var front := qs[..|qs| - 1];
      AndAllMatches(front, d);
      assert forall i | 0 <= i < |front| :: front[i] == qs[i];
    }
  }
}
