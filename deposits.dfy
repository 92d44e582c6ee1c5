/**
 * `DepositPermissionPolicy`: the access table for deposits.  Listing and
 * reading go through `RecordOwners` (owners only on an owner-restricted
 * deposit, everyone otherwise), any user creates, and update and delete are
 * defined with no generator, so only super users pass them.
 */
module Deposits {
  import opened Wrappers
  import opened Principal
  import opened Records
  import opened Queries
  import opened Generators
  import opened PolicyBase
  import opened Api

  /** The class attributes, overriding those of `BasePermissionPolicy`. */
  const DepositTable: Table := BaseTable + map[
    "list" := [RecordOwners],
    "create" := [AnyUser],
    "read" := [RecordOwners],
    "update" := [],
    "delete" := []]

  /** Any user, and super users, may create a deposit; creating filters
      nothing out. */
  lemma DepositCreate(over: Over, env: Env)
    ensures CollectNeeds(GeneratorsFor(DepositTable, "create"), over, env) == Ok({AnyUserNeed})
    ensures CollectFilters(GeneratorsFor(DepositTable, "create"), over, env) == [MatchAll]
    ensures Evaluate(DepositTable, "create", over, env) ==
      Ok(AnyUserNeed in env.actor.provided || SuperUserAccess in env.actor.provided)
  {
    assert GeneratorsFor(DepositTable, "create") == [AnyUser];
    var needs := CollectNeeds([AnyUser], over, env);
    assert needs.Ok? && needs.value == {AnyUserNeed};
    SingleGeneratorPolicy(DepositTable, "create", AnyUser, over, env);
    var held := ProvidedSet(env.actor);
    AllowsIff(held, {AnyUserNeed}, {});
    assert AnyUserNeed in held <==> AnyUserNeed in env.actor.provided;
    assert SuperUserAccess in held <==> SuperUserAccess in env.actor.provided;
    assert SetOf(AnyUser.Excludes(over, env)) == {};
  }

  /** Listing and reading a deposit: its owners (and super users) when it is
      restricted to owners, everyone otherwise. */
  lemma DepositOwnersAccess(action: string, r: Record, env: Env)
    requires action == "list" || action == "read"
    ensures Evaluate(DepositTable, action, Over(Some(r)), env) ==
      if "owners" in Restrictions(r) then
        Ok((exists o :: o in Owners(r) && UserNeed(o) in env.actor.provided)
           || SuperUserAccess in env.actor.provided)
      else
        Ok(AnyUserNeed in env.actor.provided || SuperUserAccess in env.actor.provided)
  {
    assert GeneratorsFor(DepositTable, action) == [RecordOwners];
    SingleGeneratorPolicy(DepositTable, action, RecordOwners, Over(Some(r)), env);
    RecordOwnersGrant(r, env);
    if "owners" !in Restrictions(r) {
      var held := ProvidedSet(env.actor);
      AllowsIff(held, SetOf([AnyUserNeed]), SetOf(RecordOwners.Excludes(Over(Some(r)), env)));
      assert AnyUserNeed in SetOf([AnyUserNeed]);
      assert SetOf(RecordOwners.Excludes(Over(Some(r)), env)) == {};
      assert AnyUserNeed in held <==> AnyUserNeed in env.actor.provided;
      assert SuperUserAccess in held <==> SuperUserAccess in env.actor.provided;
    }
  }

  /** Listing or reading without a record raises, as `RecordOwners.needs`
      reads the record. */
  lemma DepositWithoutRecord(action: string, env: Env)
    requires action == "list" || action == "read"
    ensures Evaluate(DepositTable, action, Over(None), env) == Err(RecordMissing)
  {
  }

  /** The records search over deposits shows the owner-restricted documents
      owned by the identity's first id, or every owner-restricted document
      when the identity has no id. */
  lemma DepositSearch(env: Env, d: Document)
    ensures CollectFilters(GeneratorsFor(DepositTable, "read"), Over(None), env) ==
      [OwnersFilter(env.actor.provided)]
    ensures var id := FirstId(env.actor.provided);
      Matches(SearchFilter(CollectFilters(GeneratorsFor(DepositTable, "read"), Over(None), env)), d) <==>
        HasText(d, "applied_restrictions", "owners") && (id.Some? ==> HasText(d, "_owners", id.value))
  {
    assert GeneratorsFor(DepositTable, "read") == [RecordOwners];
    SingleGeneratorPolicy(DepositTable, "read", RecordOwners, Over(None), env);
    RecordOwnersFilterMeaning(Over(None), env, d);
  }

  /** Without an "id" Need the deposit search shows other users' deposits:
      an identity providing only `any_user` sees a deposit owned by "u1"
      that it may not read. */
  lemma DepositSearchShowsOthersDeposits()
    ensures var env := Env(Actor(None, [AnyUserNeed]), IpConfig([], []));
      var r := Record(Some(["owners"]), Some(["u1"]), None, None, None);
      var d: Document := map["applied_restrictions" := {Text("owners")}, "_owners" := {Text("u1")}];
      && Matches(SearchFilter(CollectFilters(GeneratorsFor(DepositTable, "read"), Over(None), env)), d)
      && Evaluate(DepositTable, "read", Over(Some(r)), env) == Ok(false)
  {
  }

  /** Update and delete are granted to super users only, and filter nothing. */
  lemma DepositUpdateDelete(action: string, over: Over, env: Env)
    requires action == "update" || action == "delete"
    ensures CollectExcludes(GeneratorsFor(DepositTable, action), over, env) == {}
    ensures CollectFilters(GeneratorsFor(DepositTable, action), over, env) == []
    ensures Evaluate(DepositTable, action, over, env) == Ok(SuperUserAccess in env.actor.provided)
  {
  }

  /** Every other action falls back to `Disable` and is denied to every
      identity that provides `any_user`. */
  lemma DepositOtherActionsDisabled(action: string, over: Over, env: Env)
    requires action !in {"list", "create", "read", "update", "delete"}
    ensures CollectFilters(GeneratorsFor(DepositTable, action), over, env) == [Not(MatchAll)]
    ensures Evaluate(DepositTable, action, over, env) ==
      Ok(SuperUserAccess in env.actor.provided && AnyUserNeed !in env.actor.provided)
  {
    assert action !in DepositTable;
    UndefinedActionDenied(DepositTable, action, over, env);
  }
}
