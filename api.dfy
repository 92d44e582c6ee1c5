/**
 * `rdm_records_filter`: the default filter of the records search.  It builds
 * the read policy without a record and ORs its kept filters together; with
 * no filter at all it matches everything.
 */
module Api {
  import opened Wrappers
  import opened Queries
  import opened Generators
  import opened PolicyBase

  /** The filter a list of kept filters combines to: their disjunction, or
      `Q()` (match all) when the list is empty. */
  function SearchFilter(filters: seq<Query>): Query {
    if filters == [] then MatchAll else OrAll(filters)
  }

  /** A document is visible iff there is no filter or one of the filters
      shows it: the filters add up. */
  lemma SearchFilterMeaning(filters: seq<Query>, d: Document)
    ensures Matches(SearchFilter(filters), d) <==>
      filters == [] || exists i | 0 <= i < |filters| :: Matches(filters[i], d)
  {
    if filters != [] {
      OrAllMatches(filters, d);
    }
  }

  /** The combining loop: `qf = qf | f if qf else f` over the filters. */
  method CombineFilters(filters: seq<Query>) returns (q: Query)
    ensures q == SearchFilter(filters)
    ensures |filters| == 1 ==> q == filters[0]
    ensures |filters| >= 2 ==>
      q == Or(SearchFilter(filters[..|filters| - 1]), filters[|filters| - 1])
  {
    if filters != [] {
      var qf: Option<Query> := None;
      for i := 0 to |filters|
        invariant qf == if i == 0 then None else Some(OrAll(filters[..i]))
      {
        assert filters[..i + 1][..i] == filters[..i];
        if qf.Some? {
          qf := Some(Or(qf.value, filters[i]));
        } else {
          qf := Some(filters[i]);
        }
      }
      assert filters[..|filters|] == filters;
      q := qf.value;
    } else {
      q := MatchAll;
    }
  }

  /** `rdm_records_filter()`: the read policy of `table`, built without a
      record, and its filters combined. */
  method RdmRecordsFilter(table: Table, env: Env) returns (q: Query)
    ensures q == SearchFilter(CollectFilters(GeneratorsFor(table, "read"), Over(None), env))
  {
    var policy := new PermissionPolicy(table, "read", Over(None));
    q := CombineFilters(policy.QueryFilters(env));
  }

  /** The filters of a policy are empty iff no generator has a filter. */
  lemma {:induction false} NoFiltersIff(gens: seq<Generator>, over: Over, env: Env)
    ensures CollectFilters(gens, over, env) == [] <==>
      forall i | 0 <= i < |gens| :: gens[i].QueryFilter(over, env).None?
  {
    CollectFiltersMembers(gens, over, env);
    var fs := CollectFilters(gens, over, env);
    if fs != [] {
      assert fs[0] in fs;
    }
    if exists i | 0 <= i < |gens| :: gens[i].QueryFilter(over, env).Some? {
      var i :| 0 <= i < |gens| && gens[i].QueryFilter(over, env).Some?;
      assert gens[i].QueryFilter(over, env).value in fs;
    }
  }

  /** The records search shows a document iff no read generator has a
      filter, or some read generator's filter shows it. */
  lemma ReadFilterIsUnion(table: Table, env: Env, d: Document)
    ensures var gens := GeneratorsFor(table, "read");
      Matches(SearchFilter(CollectFilters(gens, Over(None), env)), d) <==>
        (forall i | 0 <= i < |gens| :: gens[i].QueryFilter(Over(None), env).None?)
        || exists i | 0 <= i < |gens| :: gens[i].QueryFilter(Over(None), env).Some?
             && Matches(gens[i].QueryFilter(Over(None), env).value, d)
  {
    var gens := GeneratorsFor(table, "read");
    var fs := CollectFilters(gens, Over(None), env);
    SearchFilterMeaning(fs, d);
    NoFiltersIff(gens, Over(None), env);
    CollectFiltersMembers(gens, Over(None), env);
    if exists j | 0 <= j < |fs| :: Matches(fs[j], d) {
      var j :| 0 <= j < |fs| && Matches(fs[j], d);
      assert fs[j] in fs;
      var i :| 0 <= i < |gens| && gens[i].QueryFilter(Over(None), env) == Some(fs[j]);
    }
    if exists i | 0 <= i < |gens| :: gens[i].QueryFilter(Over(None), env).Some?
         && Matches(gens[i].QueryFilter(Over(None), env).value, d) {
      var i :| 0 <= i < |gens| && gens[i].QueryFilter(Over(None), env).Some?
         && Matches(gens[i].QueryFilter(Over(None), env).value, d);
      var q := gens[i].QueryFilter(Over(None), env).value;
      assert q in fs;
      var j :| 0 <= j < |fs| && fs[j] == q;
    }
  }

  /** Adding generators to a read policy that already has a filter only
      widens what the search shows. */
  lemma MoreGeneratorsWiden(a: seq<Generator>, b: seq<Generator>, env: Env, d: Document)
    requires CollectFilters(a, Over(None), env) != []
    ensures Matches(SearchFilter(CollectFilters(a, Over(None), env)), d) ==>
      Matches(SearchFilter(CollectFilters(a + b, Over(None), env)), d)
  {
    var fa := CollectFilters(a, Over(None), env);
    var fab := CollectFilters(a + b, Over(None), env);
    CollectFiltersAppend(a, b, Over(None), env);
    SearchFilterMeaning(fa, d);
    SearchFilterMeaning(fab, d);
    if Matches(SearchFilter(fa), d) {
      var j :| 0 <= j < |fa| && Matches(fa[j], d);
      assert fab[j] == fa[j];
    }
  }

  /** Every policy class inherits `can_read = []`, so the `Disable` fallback
      never reaches the records search: a class that leaves read undefined
      shows every document. */
  lemma InheritedReadShowsAll(own: Table, env: Env, d: Document)
    requires "read" !in own
    ensures "read" in BaseTable + own && GeneratorsFor(BaseTable + own, "read") == []
    ensures Matches(SearchFilter(CollectFilters(GeneratorsFor(BaseTable + own, "read"), Over(None), env)), d)
  {
  }

  /** Filtering fails open where deciding fails closed: a table without a
      read action hides everything behind `Disable`'s filter, while a read
      action with no generators has no filter and shows everything. */
  lemma FilterAsymmetry(table: Table, env: Env, d: Document)
    ensures "read" !in table ==> !Matches(SearchFilter(CollectFilters(GeneratorsFor(table, "read"), Over(None), env)), d)
    ensures "read" in table && table["read"] == [] ==>
      Matches(SearchFilter(CollectFilters(GeneratorsFor(table, "read"), Over(None), env)), d)
  {
  }
}
