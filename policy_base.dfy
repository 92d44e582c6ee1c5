/**
 * `BasePermissionPolicy`: a policy class maps each action to the generators
 * in its `can_<action>` attribute.  An instance is built for one action and
 * one set of keyword arguments; it unions its generators' Needs and
 * exclusions, and lists their search filters.
 */
module PolicyBase {
  import opened Wrappers
  import opened Principal
  import opened Records
  import opened Queries
  import opened Generators

  /** A policy class's `can_<action>` attributes: action to generators. */
  type Table = map<string, seq<Generator>>

  /** The attributes `BasePermissionPolicy` itself defines. */
  const BaseTable: Table :=
    map["list" := [], "create" := [], "read" := [], "update" := [], "delete" := []]

  /** `getattr(cls, "can_" + action, [Disable()])`. */
  function GeneratorsFor(table: Table, action: string): seq<Generator> {
    if action in table then table[action] else [Disable]
  }

  /** `set(chain.from_iterable(g.needs(**over) for g in gens))`; raises when
      one of the generators raises. */
  function CollectNeeds(gens: seq<Generator>, over: Over, env: Env): (r: Result<set<Need>, Error>)
    ensures r.Ok? <==> forall i | 0 <= i < |gens| :: gens[i].Needs(over, env).Ok?
    ensures r.Ok? ==> forall n :: n in r.value <==>
      exists i | 0 <= i < |gens| :: gens[i].Needs(over, env).Ok? && n in gens[i].Needs(over, env).value
  {
    if gens == [] then Ok({})
    else
      var rest := CollectNeeds(gens[1..], over, env);
      assert forall i | 0 <= i < |gens[1..]| :: gens[1..][i] == gens[i + 1];
      match gens[0].Needs(over, env)
      case Err(e) => Err(e)
      case Ok(first) =>
        match rest
        case Err(e) => Err(e)
        case Ok(more) => Ok(SetOf(first) + more)
  }

  /** `set(chain.from_iterable(g.excludes(**over) for g in gens))`. */
  function CollectExcludes(gens: seq<Generator>, over: Over, env: Env): (r: set<Need>)
    ensures forall n :: n in r <==> exists i | 0 <= i < |gens| :: n in gens[i].Excludes(over, env)
  {
    if gens == [] then {}
    else
      var rest := CollectExcludes(gens[1..], over, env);
      assert forall i | 0 <= i < |gens[1..]| :: gens[1..][i] == gens[i + 1];
      SetOf(gens[0].Excludes(over, env)) + rest
  }

  /** `[f for f in (g.query_filter(**over) for g in gens) if f]`. */
  function CollectFilters(gens: seq<Generator>, over: Over, env: Env): (r: seq<Query>)
    ensures |r| <= |gens|
  {
    if gens == [] then [] else Kept(gens[0].QueryFilter(over, env)) + CollectFilters(gens[1..], over, env)
  }

  /** Exactly the filters that are not falsy are kept. */
  lemma {:induction false} CollectFiltersMembers(gens: seq<Generator>, over: Over, env: Env)
    ensures forall q :: q in CollectFilters(gens, over, env) <==>
      exists i | 0 <= i < |gens| :: gens[i].QueryFilter(over, env) == Some(q)
  {
    if gens != [] {
      CollectFiltersMembers(gens[1..], over, env);
      assert forall i | 0 <= i < |gens[1..]| :: gens[1..][i] == gens[i + 1];
    }
  }

  /** A generator's filter as the list comprehension keeps it: dropped when
      falsy. */
  function Kept(f: Option<Query>): seq<Query> {
    match f
    case None => []
    case Some(q) => [q]
  }

  /** The kept filters stay in generator order: the filters of a
      concatenation are the concatenated filters. */
  lemma {:induction false} CollectFiltersAppend(a: seq<Generator>, b: seq<Generator>, over: Over, env: Env)
    ensures CollectFilters(a + b, over, env) == CollectFilters(a, over, env) + CollectFilters(b, over, env)
  {
    if a == [] {
      assert a + b == b;
    } else {
      CollectFiltersAppend(a[1..], b, over, env);
      assert (a + b)[0] == a[0] && (a + b)[1..] == a[1..] + b;
      var head := Kept(a[0].QueryFilter(over, env));
      calc {
        CollectFilters(a + b, over, env);
        head + CollectFilters(a[1..] + b, over, env);
        head + (CollectFilters(a[1..], over, env) + CollectFilters(b, over, env));
        (head + CollectFilters(a[1..], over, env)) + CollectFilters(b, over, env);
      }
    }
  }

  /** The decision for `action` of a policy class: invenio-access's matching
      of the identity's Needs against the policy's Needs and exclusions. */
  function Evaluate(table: Table, action: string, over: Over, env: Env): Result<bool, Error> {
    var gens := GeneratorsFor(table, action);
    match CollectNeeds(gens, over, env)
    case Err(e) => Err(e)
    case Ok(needs) => Ok(Allows(ProvidedSet(env.actor), needs, CollectExcludes(gens, over, env)))
  }

  /** The decision in terms of the generators: granted iff some generator
      grants a provided Need (or the identity is a super user) and no
      generator denies a provided Need; it raises iff some generator does. */
  lemma EvaluateMeaning(table: Table, action: string, over: Over, env: Env)
    ensures var gens := GeneratorsFor(table, action);
      Evaluate(table, action, over, env).Err? <==> exists i | 0 <= i < |gens| :: gens[i].Needs(over, env).Err?
    ensures var gens := GeneratorsFor(table, action);
      Evaluate(table, action, over, env).Ok? ==>
        Evaluate(table, action, over, env).value ==
          (((exists i, n :: 0 <= i < |gens| && gens[i].Needs(over, env).Ok?
                && n in gens[i].Needs(over, env).value && n in env.actor.provided)
             || SuperUserAccess in env.actor.provided)
           && !(exists i, n :: 0 <= i < |gens| && n in gens[i].Excludes(over, env) && n in env.actor.provided))
  {
    var gens := GeneratorsFor(table, action);
    var held := ProvidedSet(env.actor);
    var needs := CollectNeeds(gens, over, env);
    var excludes := CollectExcludes(gens, over, env);
    if needs.Ok? {
      AllowsIff(held, needs.value, excludes);
      assert (exists n :: n in held && n in needs.value) <==>
        (exists i, n :: 0 <= i < |gens| && gens[i].Needs(over, env).Ok?
           && n in gens[i].Needs(over, env).value && n in env.actor.provided) by {
        if exists n :: n in held && n in needs.value {
          var n :| n in held && n in needs.value;
          var i :| 0 <= i < |gens| && gens[i].Needs(over, env).Ok? && n in gens[i].Needs(over, env).value;
          assert n in env.actor.provided;
        }
        if exists i, n :: 0 <= i < |gens| && gens[i].Needs(over, env).Ok?
             && n in gens[i].Needs(over, env).value && n in env.actor.provided {
          var i, n :| 0 <= i < |gens| && gens[i].Needs(over, env).Ok?
             && n in gens[i].Needs(over, env).value && n in env.actor.provided;
          assert n in held && n in needs.value;
        }
      }
      assert (forall n :: n in held ==> n !in excludes) <==>
        !(exists i, n :: 0 <= i < |gens| && n in gens[i].Excludes(over, env) && n in env.actor.provided) by {
        if exists i, n :: 0 <= i < |gens| && n in gens[i].Excludes(over, env) && n in env.actor.provided {
          var i, n :| 0 <= i < |gens| && n in gens[i].Excludes(over, env) && n in env.actor.provided;
          assert n in held && n in excludes;
        }
      }
      assert SuperUserAccess in held <==> SuperUserAccess in env.actor.provided;
    }
  }

  /** An action the class does not define falls back to `Disable`: nothing
      grants, `any_user` denies and the search shows nothing, so every
      identity that provides `any_user`, super users included, is denied. */
  lemma UndefinedActionDenied(table: Table, action: string, over: Over, env: Env)
    requires action !in table
    ensures CollectNeeds(GeneratorsFor(table, action), over, env) == Ok({})
    ensures CollectExcludes(GeneratorsFor(table, action), over, env) == {AnyUserNeed}
    ensures CollectFilters(GeneratorsFor(table, action), over, env) == [Not(MatchAll)]
    ensures Evaluate(table, action, over, env) ==
      Ok(SuperUserAccess in env.actor.provided && AnyUserNeed !in env.actor.provided)
  {
    var held := ProvidedSet(env.actor);
    assert GeneratorsFor(table, action) == [Disable];
    assert SetOf([]) == {};
    assert [Disable][1..] == [];
    var needs := CollectNeeds([Disable], over, env);
    assert needs.Ok? && needs.value == {};
    assert CollectExcludes([Disable], over, env) == {AnyUserNeed};
    assert AnyUserNeed in held <==> AnyUserNeed in env.actor.provided;
    assert SuperUserAccess in held <==> SuperUserAccess in env.actor.provided;
    AllowsIff(held, {}, {AnyUserNeed});
  }

  /** An action defined with an empty list grants only super users, and its
      search has no filter. */
  lemma EmptyActionOnlySuperUsers(table: Table, action: string, over: Over, env: Env)
    requires action in table && table[action] == []
    ensures CollectNeeds(GeneratorsFor(table, action), over, env) == Ok({})
    ensures CollectExcludes(GeneratorsFor(table, action), over, env) == {}
    ensures CollectFilters(GeneratorsFor(table, action), over, env) == []
    ensures Evaluate(table, action, over, env) == Ok(SuperUserAccess in env.actor.provided)
  {
  }

  /** A policy of one generator decides and filters as that generator does
      alone: no generator is skipped or added. */
  lemma SingleGeneratorPolicy(table: Table, action: string, g: Generator, over: Over, env: Env)
    requires action in table && table[action] == [g]
    ensures Evaluate(table, action, over, env) == GrantedBy(g, over, env)
    ensures CollectFilters(GeneratorsFor(table, action), over, env) == Kept(g.QueryFilter(over, env))
  {
  }

  /**
   * One instance of a policy class, for one action and one set of keyword
   * arguments.  `explicitNeeds` and `explicitExcludes` are the
   * `explicit_needs` and `explicit_excludes` sets of invenio-access's
   * `Permission`, which the `needs` and `excludes` properties grow.
   */
  class PermissionPolicy {
    const table: Table
    const action: string
    const over: Over
    var explicitNeeds: set<Need>
    var explicitExcludes: set<Need>

    /** `__init__(action, **over)`. */
    constructor (table: Table, action: string, over: Over)
      ensures this.table == table && this.action == action && this.over == over
      ensures explicitNeeds == {} && explicitExcludes == {}
    {
      this.table := table;
      this.action := action;
      this.over := over;
      explicitNeeds := {};
      explicitExcludes := {};
    }

    /** The `generators` property. */
    function Generators(): seq<Generator> {
      GeneratorsFor(table, action)
    }

    /** The `needs` property: adds this call's Needs to `explicit_needs` and
        returns the accumulated set; when a generator raises, nothing changes. */
    method Needs(env: Env) returns (r: Result<set<Need>, Error>)
      modifies this`explicitNeeds
      ensures CollectNeeds(Generators(), over, env).Err? ==>
        r == CollectNeeds(Generators(), over, env) && explicitNeeds == old(explicitNeeds)
      ensures CollectNeeds(Generators(), over, env).Ok? ==>
        explicitNeeds == old(explicitNeeds) + CollectNeeds(Generators(), over, env).value
        && r == Ok(explicitNeeds)
      ensures old(explicitNeeds) <= explicitNeeds
    {
      var needs := CollectNeeds(Generators(), over, env);
      if needs.Err? {
        return Err(needs.error);
      }
      explicitNeeds := explicitNeeds + needs.value;
      r := Ok(explicitNeeds);
    }

    /** The `excludes` property: adds this call's exclusions to
        `explicit_excludes` and returns the accumulated set. */
    method Excludes(env: Env) returns (r: set<Need>)
      modifies this`explicitExcludes
      ensures explicitExcludes == old(explicitExcludes) + CollectExcludes(Generators(), over, env)
      ensures r == explicitExcludes
    {
      explicitExcludes := explicitExcludes + CollectExcludes(Generators(), over, env);
      r := explicitExcludes;
    }

    /** The `query_filters` property. */
    function QueryFilters(env: Env): seq<Query> {
      CollectFilters(Generators(), over, env)
    }
  }

  /** Reading `needs` twice with the same inputs gives the same set, and so
      does `excludes`. */
  method RepeatedReadsAgree(policy: PermissionPolicy, env: Env)
    returns (needs1: Result<set<Need>, Error>, needs2: Result<set<Need>, Error>, excludes1: set<Need>, excludes2: set<Need>)
    modifies policy
    ensures needs1 == needs2 && excludes1 == excludes2
    ensures CollectNeeds(policy.Generators(), policy.over, env).Ok? ==> needs1.Ok?
  {
    needs1 := policy.Needs(env);
    needs2 := policy.Needs(env);
    if needs1.Ok? {
      var added := CollectNeeds(policy.Generators(), policy.over, env).value;
      assert needs1.value + added == needs1.value;
    }
    excludes1 := policy.Excludes(env);
    excludes2 := policy.Excludes(env);
  }

  /** A fresh instance answers with exactly the policy's composition. */
  method FreshPolicyAgrees(table: Table, action: string, over: Over, env: Env)
    returns (needs: Result<set<Need>, Error>, excludes: set<Need>, allowed: Result<bool, Error>)
    ensures needs == CollectNeeds(GeneratorsFor(table, action), over, env)
    ensures excludes == CollectExcludes(GeneratorsFor(table, action), over, env)
    ensures allowed == Evaluate(table, action, over, env)
  {
    var policy := new PermissionPolicy(table, action, over);
    needs := policy.Needs(env);
    excludes := policy.Excludes(env);
    var expected := CollectNeeds(GeneratorsFor(table, action), over, env);
    assert policy.Generators() == GeneratorsFor(table, action);
    if expected.Ok? {
      assert needs.value == {} + expected.value;
      assert {} + expected.value == expected.value;
    }
    allowed := match needs
      case Err(e) => Err(e)
      case Ok(n) => Ok(Allows(ProvidedSet(env.actor), n, excludes));
  }
}
