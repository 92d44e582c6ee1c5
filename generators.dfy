/**
 * The permission generators.  Each generator answers three questions about
 * an action: the Needs that grant it (`needs`), the Needs that deny it
 * (`excludes`) and the search filter that restricts a listing to what it
 * allows (`query_filter`, where the falsy `[]` is `None`).  The keyword
 * arguments of a policy (`**over`) carry the optional record; the Flask
 * globals and the allow-lists of the deployment are the environment.
 */
module Generators {
  import opened Wrappers
  import opened Principal
  import opened Records
  import opened Queries
  import Strings

  /** One configured address range `(start, end)`, both ends inclusive. */
  datatype IpRange = IpRange(start: string, end: string)

  /** The deployment's `single_ips` and `ip_ranges`. */
  datatype IpConfig = IpConfig(singleIps: seq<string>, ipRanges: seq<IpRange>)

  /** What the generators read besides their arguments. */
  datatype Env = Env(actor: Actor, ips: IpConfig)

  /** The keyword arguments a policy passes to every generator. */
  datatype Over = Over(record: Option<Record>)

  /** `AllowedByAccessLevel.ACTION_TO_ACCESS_LEVELS`. */
  const ActionToAccessLevels: map<string, seq<string>> :=
    map["create" := [], "read" := ["metadata_curator"], "update" := ["metadata_curator"], "delete" := []]

  /** `ACTION_TO_ACCESS_LEVELS.get(action, [])`. */
  function AccessLevels(action: string): seq<string> {
    if action in ActionToAccessLevels then ActionToAccessLevels[action] else []
  }

  // ---------------------------------------------------------------- addresses

  /** `start <= ip <= end` as Python compares strings. */
  predicate InRange(ip: string, range: IpRange) {
    Strings.LexLe(range.start, ip) && Strings.LexLe(ip, range.end)
  }

  predicate IpInRanges(ip: string, ranges: seq<IpRange>) {
    exists i | 0 <= i < |ranges| :: InRange(ip, ranges[i])
  }

  /** `RecordIp.check_permission`: a login address that is one of `single_ips`. */
  predicate SingleIpAllowed(env: Env) {
    env.actor.loginIp.Some? && env.actor.loginIp.value in env.ips.singleIps
  }

  /** `RecordIpRange.check_permission`: a login address inside some range. */
  predicate RangeIpAllowed(env: Env) {
    env.actor.loginIp.Some? && IpInRanges(env.actor.loginIp.value, env.ips.ipRanges)
  }

  /** `RecordIpRange.check_permission`, with its loop and early return. */
  method RecordIpRangeCheckPermission(env: Env) returns (visible: bool)
    ensures visible == RangeIpAllowed(env)
  {
    if env.actor.loginIp.None? {
      return false;
    }
    var userIp := env.actor.loginIp.value;
    var ranges := env.ips.ipRanges;
    var i := 0;
    while i < |ranges|
      invariant 0 <= i <= |ranges|
      invariant forall j | 0 <= j < i :: !InRange(userIp, ranges[j])
    {
      var ipStart := ranges[i].start;
      var ipEnd := ranges[i].end;
      if Strings.LexLe(ipStart, userIp) && Strings.LexLe(userIp, ipEnd) {
        return true;
      }
      i := i + 1;
    }
    return false;
  }

  /** The order of the configured ranges does not matter. */
  lemma RangeOrderIrrelevant(ip: string, a: seq<IpRange>, b: seq<IpRange>)
    requires multiset(a) == multiset(b)
    ensures IpInRanges(ip, a) <==> IpInRanges(ip, b)
  {
    if IpInRanges(ip, a) {
      var i :| 0 <= i < |a| && InRange(ip, a[i]);
      assert a[i] in multiset(b);
      var j :| 0 <= j < |b| && b[j] == a[i];
    }
    if IpInRanges(ip, b) {
      var j :| 0 <= j < |b| && InRange(ip, b[j]);
      assert b[j] in multiset(a);
      var i :| 0 <= i < |a| && a[i] == b[j];
    }
  }

  /** A range whose start sorts after its end admits no address. */
  lemma InvertedRangeAdmitsNothing(ip: string, range: IpRange)
    requires !Strings.LexLe(range.start, range.end)
    ensures !InRange(ip, range)
  {
    if InRange(ip, range) {
      Strings.LexLeTransitive(range.start, ip, range.end);
    }
  }

  /** One single-address range `(s, s)` per address. */
  function PointRanges(ips: seq<string>): (r: seq<IpRange>)
    ensures |r| == |ips|
    ensures forall i | 0 <= i < |ips| :: r[i] == IpRange(ips[i], ips[i])
  {
    if ips == [] then [] else [IpRange(ips[0], ips[0])] + PointRanges(ips[1..])
  }

  /** The range check over single-address ranges is the exact-match check:
      a range `(s, s)` admits exactly `s`. */
  lemma PointRangesAgree(ip: string, ips: seq<string>)
    ensures IpInRanges(ip, PointRanges(ips)) <==> ip in ips
  {
    var ranges := PointRanges(ips);
    if IpInRanges(ip, ranges) {
      var i :| 0 <= i < |ranges| && InRange(ip, ranges[i]);
      Strings.LexLeAntisymmetric(ip, ips[i]);
    }
    if ip in ips {
      var i :| 0 <= i < |ips| && ips[i] == ip;
      Strings.LexLeReflexive(ip);
      assert InRange(ip, ranges[i]);
    }
  }

  /** The comparison is on strings, not on addresses: the range from
      10.0.0.1 to 10.0.0.2 admits 10.0.0.10. */
  lemma StringRangeAdmitsLongerAddress()
    ensures InRange("10.0.0.10", IpRange("10.0.0.1", "10.0.0.2"))
  {
  }

  // ------------------------------------------------------ needs from records

  /** `RecordIp.needs` and `RecordIpRange.needs`, for restriction `marker`
      and the result `visible` of the address check. */
  function IpNeeds(marker: string, visible: bool, record: Option<Record>): Result<seq<Need>, Error> {
    match record
    case None => Err(RecordMissing)
    case Some(r) =>
      if marker !in Restrictions(r) || visible then Ok([AnyUserNeed]) else Ok([])
  }

  /** `RecordIp.query_filter` and `RecordIpRange.query_filter`. */
  function IpFilter(marker: string, visible: bool): Query {
    if !visible then Not(Match("applied_restrictions", marker)) else MatchAll
  }

  /** One Need of the given method per value, in order. */
  function NeedsFor(kind: string, values: seq<string>): (r: seq<Need>)
    ensures |r| == |values|
    ensures forall i | 0 <= i < |values| :: r[i] == Need(kind, values[i])
  {
    if values == [] then [] else [Need(kind, values[0])] + NeedsFor(kind, values[1..])
  }

  /** `RecordOwners.needs`. */
  function OwnersNeeds(record: Option<Record>): Result<seq<Need>, Error> {
    match record
    case None => Err(RecordMissing)
    case Some(r) =>
      if "owners" !in Restrictions(r) then Ok([AnyUserNeed]) else Ok(NeedsFor("id", Owners(r)))
  }

  /** `RecordGroups.needs`. */
  function GroupsNeeds(record: Option<Record>): Result<seq<Need>, Error> {
    match record
    case None => Err(RecordMissing)
    case Some(r) =>
      if "groups" !in Restrictions(r) then Ok([AnyUserNeed]) else Ok(NeedsFor("role", GroupRestrictions(r)))
  }

  /** `AnyUserIfPublic.needs`. */
  function PublicNeeds(record: Option<Record>): seq<Need> {
    if record.Some? && MetadataRestricted(record.value) then [] else [AnyUserNeed]
  }

  /** The identities of all the given levels, level after level
      (`chain.from_iterable`). */
  function AllowedIdentities(r: Record, levels: seq<string>): (es: seq<LevelEntry>)
    ensures forall e :: e in es <==> exists j | 0 <= j < |levels| :: e in LevelEntries(r, levels[j])
  {
    if levels == [] then []
    else
      var rest := AllowedIdentities(r, levels[1..]);
      assert forall j | 0 <= j < |levels[1..]| :: levels[1..][j] == levels[j + 1];
      LevelEntries(r, levels[0]) + rest
  }

  /** An identity of scheme "person" whose id is truthy. */
  predicate IsPerson(e: LevelEntry) {
    e.scheme == Some("person") && e.id.Some? && e.id.value != ""
  }

  /** One `UserNeed` per person identity, in order. */
  function PersonNeeds(es: seq<LevelEntry>): (r: seq<Need>)
    ensures |r| <= |es|
    ensures forall n :: n in r <==> exists k | 0 <= k < |es| :: IsPerson(es[k]) && n == UserNeed(es[k].id.value)
  {
    if es == [] then []
    else
      var rest := PersonNeeds(es[1..]);
      assert forall k | 0 <= k < |es[1..]| :: es[1..][k] == es[k + 1];
      if IsPerson(es[0]) then [UserNeed(es[0].id.value)] + rest else rest
  }

  /** `AllowedByAccessLevel.needs`. */
  function AccessLevelNeeds(action: string, record: Option<Record>): seq<Need> {
    match record
    case None => []
    case Some(r) => PersonNeeds(AllowedIdentities(r, AccessLevels(action)))
  }

  // ------------------------------------------------- filters from identities

  /** The value of the first provided Need of method "id", as the `break` in
      `RecordOwners.query_filter` and the `next(...)` in
      `AllowedByAccessLevel.query_filter` pick it. */
  function FirstId(provided: seq<Need>): (r: Option<string>)
    ensures r.None? <==> forall i | 0 <= i < |provided| :: provided[i].kind != "id"
    ensures r.Some? ==> exists i | 0 <= i < |provided| ::
      provided[i] == UserNeed(r.value) && forall j | 0 <= j < i :: provided[j].kind != "id"
  {
    if provided == [] then None
    else if provided[0].kind == "id" then Some(provided[0].value)
    else
      var rest := FirstId(provided[1..]);
      assert forall j | 0 <= j < |provided[1..]| :: provided[1..][j] == provided[j + 1];
      rest
  }

  /** The value of the last provided Need of method "role": the loop of
      `RecordGroups.query_filter` overwrites one dictionary key with each. */
  function LastRole(provided: seq<Need>): (r: Option<string>)
    ensures r.None? <==> forall i | 0 <= i < |provided| :: provided[i].kind != "role"
    ensures r.Some? ==> exists i | 0 <= i < |provided| ::
      provided[i] == RoleNeed(r.value) && forall j | i < j < |provided| :: provided[j].kind != "role"
  {
    if provided == [] then None
    else if provided[|provided| - 1].kind == "role" then Some(provided[|provided| - 1].value)
    else
      var front := provided[..|provided| - 1];
      var rest := LastRole(front);
      assert forall j | 0 <= j < |front| :: front[j] == provided[j];
      rest
  }

  /** One more provided Need: a role replaces the last role. */
  lemma LastRoleStep(provided: seq<Need>, i: nat)
    requires i < |provided|
    ensures LastRole(provided[..i + 1]) ==
      if provided[i].kind == "role" then Some(provided[i].value) else LastRole(provided[..i])
  {
    assert provided[..i + 1][..i] == provided[..i];
  }

  /** `RecordOwners.query_filter`. */
  function OwnersFilter(provided: seq<Need>): Query {
    var restriction := Match("applied_restrictions", "owners");
    match FirstId(provided)
    case None => AndAll([restriction])
    case Some(id) => AndAll([restriction, Match("_owners", id)])
  }

  /** `RecordOwners.query_filter`, filling the `matches` dictionary in a loop. */
  method RecordOwnersQueryFilter(provided: seq<Need>) returns (q: Query)
    ensures q == OwnersFilter(provided)
  {
    var matches := map["applied_restrictions" := "owners"];
    var i := 0;
    while i < |provided|
      invariant 0 <= i <= |provided|
      invariant matches == map["applied_restrictions" := "owners"]
      invariant FirstId(provided[i..]) == FirstId(provided)
    {
      if provided[i].kind == "id" {
        assert provided[i..][0] == provided[i];
        matches := matches["_owners" := provided[i].value];
        break;
      }
      assert provided[i..][1..] == provided[i + 1..];
      i := i + 1;
    }
    assert i == |provided| ==> provided[i..] == [];
    // the dictionary's keys in insertion order
    var queries := [Match("applied_restrictions", matches["applied_restrictions"])];
    if "_owners" in matches {
      queries := queries + [Match("_owners", matches["_owners"])];
    }
    q := AndAll(queries);
    match FirstId(provided)
    case None =>
      assert queries == [Match("applied_restrictions", "owners")];
    case Some(id) =>
      assert matches == map["applied_restrictions" := "owners", "_owners" := id];
      assert queries == [Match("applied_restrictions", "owners"), Match("_owners", id)];
  }

  /** `RecordGroups.query_filter`. */
  function GroupsFilter(provided: seq<Need>): Query {
    match LastRole(provided)
    case None => Not(MatchAll)
    case Some(role) =>
      And(Match("applied_restrictions", "groups"), OrAll([Match("group_restrictions", role)]))
  }

  /** `RecordGroups.query_filter`, filling the `matches` dictionary in a loop. */
  method RecordGroupsQueryFilter(provided: seq<Need>) returns (q: Query)
    ensures q == GroupsFilter(provided)
  {
    var queryRestrictions := Match("applied_restrictions", "groups");
    var matches: map<string, string> := map[];
    for i := 0 to |provided|
      invariant matches == match LastRole(provided[..i])
        case None => map[]
        case Some(role) => map["group_restrictions" := role]
    {
      LastRoleStep(provided, i);
      if provided[i].kind == "role" {
        matches := matches["group_restrictions" := provided[i].value];
      }
    }
    assert provided[..|provided|] == provided;
    if |matches| == 0 {
      return Not(MatchAll);
    }
    assert "group_restrictions" in matches;
    var queryMatches := [Match("group_restrictions", matches["group_restrictions"])];
    q := And(queryRestrictions, OrAll(queryMatches));
  }

  /** One `term` query per access level for the person `id`. */
  function LevelTerms(levels: seq<string>, id: string): (r: seq<Query>)
    ensures |r| == |levels|
    ensures forall i | 0 <= i < |levels| ::
      r[i] == Term("internal.access_levels." + levels[i], Identity("person", id))
  {
    if levels == [] then []
    else [Term("internal.access_levels." + levels[0], Identity("person", id))] + LevelTerms(levels[1..], id)
  }

  /** `AllowedByAccessLevel.query_filter`: always over the "read" levels. */
  function AccessLevelFilter(provided: seq<Need>): Option<Query> {
    match FirstId(provided)
    case None => None
    case Some(id) => Some(OrAll(LevelTerms(AccessLevels("read"), id)))
  }

  // --------------------------------------------------------------- generators

  /** The generator classes; `Base` is `Generator` itself. */
  datatype Generator =
    | Base
    | RecordIp
    | RecordIpRange
    | RecordOwners
    | RecordGroups
    | AnyUser
    | SuperUser
    | Disable
    | Admin
    | AnyUserIfPublic
    | AllowedByAccessLevel(action: string)  // constructor default: "read"
  {
    /** `needs(**over)`. */
    function Needs(over: Over, env: Env): Result<seq<Need>, Error> {
      match this
      case Base => Ok([])
      case RecordIp => IpNeeds("ip_single", SingleIpAllowed(env), over.record)
      case RecordIpRange => IpNeeds("ip_range", RangeIpAllowed(env), over.record)
      case RecordOwners => OwnersNeeds(over.record)
      case RecordGroups => GroupsNeeds(over.record)
      case AnyUser => Ok([AnyUserNeed])
      case SuperUser => Ok([SuperUserAccess])
      case Disable => Ok([])
      case Admin => Ok([ActionNeed("admin-access")])
      case AnyUserIfPublic => Ok(PublicNeeds(over.record))
      case AllowedByAccessLevel(action) => Ok(AccessLevelNeeds(action, over.record))
    }

    /** `excludes(**over)`. */
    function Excludes(over: Over, env: Env): seq<Need> {
      match this
      case Disable => [AnyUserNeed]
      case _ => []
    }

    /** `query_filter(**over)`; `None` is the falsy `[]`. */
    function QueryFilter(over: Over, env: Env): Option<Query> {
      match this
      case Base => None
      case RecordIp => Some(IpFilter("ip_single", SingleIpAllowed(env)))
      case RecordIpRange => Some(IpFilter("ip_range", RangeIpAllowed(env)))
      case RecordOwners => Some(OwnersFilter(env.actor.provided))
      case RecordGroups => Some(GroupsFilter(env.actor.provided))
      case AnyUser => Some(MatchAll)
      case SuperUser => None
      case Disable => Some(Not(MatchAll))
      case Admin => None
      case AnyUserIfPublic => Some(Term("_access.metadata_restricted", Flag(false)))
      case AllowedByAccessLevel(_) => AccessLevelFilter(env.actor.provided)
    }
  }

  /** The decision a policy holding only `g` would reach. */
  function GrantedBy(g: Generator, over: Over, env: Env): Result<bool, Error> {
    match g.Needs(over, env)
    case Err(e) => Err(e)
    case Ok(needs) => Ok(Allows(ProvidedSet(env.actor), SetOf(needs), SetOf(g.Excludes(over, env))))
  }

  /** The document's `applied_restrictions` field holds exactly the record's
      restrictions. */
  ghost predicate RestrictionsIndexed(d: Document, r: Record) {
    forall m :: HasText(d, "applied_restrictions", m) <==> m in Restrictions(r)
  }

  // ------------------------------------------------------------------ lemmas

  /** The base generator grants nothing, denies nothing and does not filter. */
  lemma BaseGeneratorEmpty(over: Over, env: Env)
    ensures Base.Needs(over, env) == Ok([]) && Base.Excludes(over, env) == [] && Base.QueryFilter(over, env) == None
  {
  }

  /** The subclasses whose projections are constant. */
  lemma ConstantGenerators(over: Over, env: Env)
    ensures AnyUser.Needs(over, env) == Ok([AnyUserNeed]) && AnyUser.Excludes(over, env) == []
        && AnyUser.QueryFilter(over, env) == Some(MatchAll)
    ensures SuperUser.Needs(over, env) == Ok([SuperUserAccess]) && SuperUser.Excludes(over, env) == []
        && SuperUser.QueryFilter(over, env) == None
    ensures Disable.Needs(over, env) == Ok([]) && Disable.Excludes(over, env) == [AnyUserNeed]
        && Disable.QueryFilter(over, env) == Some(Not(MatchAll))
    ensures Admin.Needs(over, env) == Ok([ActionNeed("admin-access")]) && Admin.Excludes(over, env) == []
        && Admin.QueryFilter(over, env) == None
  {
  }

  /** Only `Disable` denies anything, and it denies `any_user`. */
  lemma OnlyDisableExcludes(g: Generator, over: Over, env: Env)
    ensures g.Excludes(over, env) != [] <==> g == Disable
    ensures g == Disable ==> g.Excludes(over, env) == [AnyUserNeed]
  {
  }

  /** `needs` raises exactly for the four generators that call `record.get`,
      and only when there is no record. */
  lemma NeedsFailsIff(g: Generator, over: Over, env: Env)
    ensures g.Needs(over, env).Err? <==>
      over.record.None? && (g.RecordIp? || g.RecordIpRange? || g.RecordOwners? || g.RecordGroups?)
  {
  }

  /** No search filter depends on the record. */
  lemma QueryFilterIgnoresRecord(g: Generator, over1: Over, over2: Over, env: Env)
    ensures g.QueryFilter(over1, env) == g.QueryFilter(over2, env)
  {
  }

  /** An identity providing `any_user` is granted by `RecordIp` unless the
      record is "ip_single"-restricted and its address is not allowed. */
  lemma RecordIpGrant(r: Record, env: Env)
    requires AnyUserNeed in env.actor.provided
    ensures GrantedBy(RecordIp, Over(Some(r)), env) ==
      Ok("ip_single" !in Restrictions(r) || SingleIpAllowed(env) || SuperUserAccess in env.actor.provided)
  {
    IpGrant("ip_single", SingleIpAllowed(env), r, env);
  }

  /** An identity providing `any_user` is granted by `RecordIpRange` unless the
      record is "ip_range"-restricted and its address is in no range. */
  lemma RecordIpRangeGrant(r: Record, env: Env)
    requires AnyUserNeed in env.actor.provided
    ensures GrantedBy(RecordIpRange, Over(Some(r)), env) ==
      Ok("ip_range" !in Restrictions(r) || RangeIpAllowed(env) || SuperUserAccess in env.actor.provided)
  {
    IpGrant("ip_range", RangeIpAllowed(env), r, env);
  }

  lemma IpGrant(marker: string, visible: bool, r: Record, env: Env)
    requires AnyUserNeed in env.actor.provided
    ensures var needs := IpNeeds(marker, visible, Some(r)).value;
      Allows(ProvidedSet(env.actor), SetOf(needs), {}) ==
        (marker !in Restrictions(r) || visible || SuperUserAccess in env.actor.provided)
  {
    var held := ProvidedSet(env.actor);
    var needs := IpNeeds(marker, visible, Some(r)).value;
    AllowsIff(held, SetOf(needs), {});
    assert AnyUserNeed in held;
    if marker !in Restrictions(r) || visible {
      assert AnyUserNeed in SetOf(needs);
    } else {
      assert SetOf(needs) == {};
    }
  }

  /** For the two address generators the search filter and the Needs agree:
      the filter shows a record's document exactly when the Needs let every
      identity in. */
  lemma IpFilterAgreesWithNeeds(g: Generator, r: Record, d: Document, env: Env)
    requires g.RecordIp? || g.RecordIpRange?
    requires RestrictionsIndexed(d, r)
    ensures Matches(g.QueryFilter(Over(Some(r)), env).value, d) <==>
      AnyUserNeed in g.Needs(Over(Some(r)), env).value
  {
  }

  /** `RecordOwners`: the owners of an "owners"-restricted record, one
      `UserNeed` each and in order; everyone otherwise. */
  lemma RecordOwnersGrant(r: Record, env: Env)
    ensures "owners" !in Restrictions(r) ==> RecordOwners.Needs(Over(Some(r)), env) == Ok([AnyUserNeed])
    ensures "owners" in Restrictions(r) ==>
      var needs := RecordOwners.Needs(Over(Some(r)), env).value;
      && |needs| == |Owners(r)|
      && (forall i | 0 <= i < |needs| :: needs[i] == UserNeed(Owners(r)[i]))
      && GrantedBy(RecordOwners, Over(Some(r)), env) ==
           Ok((exists o :: o in Owners(r) && UserNeed(o) in env.actor.provided)
              || SuperUserAccess in env.actor.provided)
  {
    if "owners" in Restrictions(r) {
      var held := ProvidedSet(env.actor);
      var needs := NeedsFor("id", Owners(r));
      assert RecordOwners.Needs(Over(Some(r)), env) == Ok(needs);
      assert SetOf(RecordOwners.Excludes(Over(Some(r)), env)) == {};
      AllowsIff(held, SetOf(needs), {});
      assert (exists o :: o in Owners(r) && UserNeed(o) in env.actor.provided) <==>
             (exists n :: n in held && n in SetOf(needs)) by {
        if exists o :: o in Owners(r) && UserNeed(o) in env.actor.provided {
          var o :| o in Owners(r) && UserNeed(o) in env.actor.provided;
          var i :| 0 <= i < |Owners(r)| && Owners(r)[i] == o;
          assert needs[i] == UserNeed(o) && needs[i] in SetOf(needs) && UserNeed(o) in held;
        }
        if exists n :: n in held && n in SetOf(needs) {
          var n :| n in held && n in SetOf(needs);
          var i :| 0 <= i < |needs| && needs[i] == n;
          assert Owners(r)[i] in Owners(r) && UserNeed(Owners(r)[i]) in env.actor.provided;
        }
      }
      assert SuperUserAccess in held <==> SuperUserAccess in env.actor.provided;
    }
  }

  /** `RecordGroups`: the groups of a "groups"-restricted record, one
      `RoleNeed` each and in order; everyone otherwise. */
  lemma RecordGroupsGrant(r: Record, env: Env)
    ensures "groups" !in Restrictions(r) ==> RecordGroups.Needs(Over(Some(r)), env) == Ok([AnyUserNeed])
    ensures "groups" in Restrictions(r) ==>
      var needs := RecordGroups.Needs(Over(Some(r)), env).value;
      && |needs| == |GroupRestrictions(r)|
      && (forall i | 0 <= i < |needs| :: needs[i] == RoleNeed(GroupRestrictions(r)[i]))
      && GrantedBy(RecordGroups, Over(Some(r)), env) ==
           Ok((exists g :: g in GroupRestrictions(r) && RoleNeed(g) in env.actor.provided)
              || SuperUserAccess in env.actor.provided)
  {
    if "groups" in Restrictions(r) {
      var held := ProvidedSet(env.actor);
      var needs := NeedsFor("role", GroupRestrictions(r));
      assert RecordGroups.Needs(Over(Some(r)), env) == Ok(needs);
      assert SetOf(RecordGroups.Excludes(Over(Some(r)), env)) == {};
      AllowsIff(held, SetOf(needs), {});
      assert (exists g :: g in GroupRestrictions(r) && RoleNeed(g) in env.actor.provided) <==>
             (exists n :: n in held && n in SetOf(needs)) by {
        if exists g :: g in GroupRestrictions(r) && RoleNeed(g) in env.actor.provided {
          var g :| g in GroupRestrictions(r) && RoleNeed(g) in env.actor.provided;
          var i :| 0 <= i < |GroupRestrictions(r)| && GroupRestrictions(r)[i] == g;
          assert needs[i] == RoleNeed(g) && needs[i] in SetOf(needs) && RoleNeed(g) in held;
        }
        if exists n :: n in held && n in SetOf(needs) {
          var n :| n in held && n in SetOf(needs);
          var i :| 0 <= i < |needs| && needs[i] == n;
          assert GroupRestrictions(r)[i] in GroupRestrictions(r) && RoleNeed(GroupRestrictions(r)[i]) in env.actor.provided;
        }
      }
      assert SuperUserAccess in held <==> SuperUserAccess in env.actor.provided;
    }
  }

  /** The owners filter shows documents restricted to owners and, when the
      identity has an id, owned by that id. */
  lemma RecordOwnersFilterMeaning(over: Over, env: Env, d: Document)
    ensures RecordOwners.QueryFilter(over, env).Some?
    ensures var id := FirstId(env.actor.provided);
      Matches(RecordOwners.QueryFilter(over, env).value, d) <==>
        HasText(d, "applied_restrictions", "owners") && (id.Some? ==> HasText(d, "_owners", id.value))
  {
    var restriction := Match("applied_restrictions", "owners");
    match FirstId(env.actor.provided)
    case None =>
    case Some(id) =>
      AndAllMatches([restriction, Match("_owners", id)], d);
  }

  /** The owners filter hides a record that its Needs open to everyone: a
      record without the "owners" restriction. */
  lemma RecordOwnersFilterHidesOpenRecord(r: Record, d: Document, env: Env)
    requires "owners" !in Restrictions(r) && RestrictionsIndexed(d, r)
    ensures RecordOwners.Needs(Over(Some(r)), env) == Ok([AnyUserNeed])
    ensures !Matches(RecordOwners.QueryFilter(Over(Some(r)), env).value, d)
  {
    RecordOwnersFilterMeaning(Over(Some(r)), env, d);
    assert !HasText(d, "applied_restrictions", "owners");
  }

  /** An identity without an "id" Need sees every owner-restricted record in
      the search, though the record's Needs grant it only as a super user. */
  lemma RecordOwnersFilterShowsWithoutId(r: Record, d: Document, env: Env)
    requires FirstId(env.actor.provided).None?
    requires "owners" in Restrictions(r) && RestrictionsIndexed(d, r)
    ensures GrantedBy(RecordOwners, Over(Some(r)), env) == Ok(SuperUserAccess in env.actor.provided)
    ensures Matches(RecordOwners.QueryFilter(Over(Some(r)), env).value, d)
  {
    RecordOwnersGrant(r, env);
    RecordOwnersFilterMeaning(Over(Some(r)), env, d);
    assert HasText(d, "applied_restrictions", "owners");
  }

  /** The groups filter shows nothing to an identity without a role, and
      otherwise documents restricted to groups that list its LAST role. */
  lemma RecordGroupsFilterMeaning(over: Over, env: Env, d: Document)
    ensures RecordGroups.QueryFilter(over, env).Some?
    ensures var role := LastRole(env.actor.provided);
      Matches(RecordGroups.QueryFilter(over, env).value, d) <==>
        role.Some? && HasText(d, "applied_restrictions", "groups") && HasText(d, "group_restrictions", role.value)
  {
  }

  /** Only the last role counts: an identity holding roles "a" then "b" does
      not see a document restricted to group "a", though the Needs of that
      record grant the identity. */
  lemma RecordGroupsFilterKeepsLastRole()
    ensures var env := Env(Actor(None, [RoleNeed("a"), RoleNeed("b")]), IpConfig([], []));
      var r := Record(Some(["groups"]), None, Some(["a"]), None, None);
      var d: Document := map["applied_restrictions" := {Text("groups")}, "group_restrictions" := {Text("a")}];
      && GrantedBy(RecordGroups, Over(Some(r)), env) == Ok(true)
      && !Matches(RecordGroups.QueryFilter(Over(Some(r)), env).value, d)
  {
    var env := Env(Actor(None, [RoleNeed("a"), RoleNeed("b")]), IpConfig([], []));
    var r := Record(Some(["groups"]), None, Some(["a"]), None, None);
    assert env.actor.provided[1..] == [RoleNeed("b")];
    assert LastRole(env.actor.provided) == Some("b");
    RecordGroupsGrant(r, env);
    assert "a" in GroupRestrictions(r) && RoleNeed("a") in env.actor.provided;
  }

  /** The filters read the provided Needs in their iteration order: the same
      Needs in another order give another groups filter. */
  lemma GroupsFilterDependsOnOrder()
    ensures var p1 := [RoleNeed("a"), RoleNeed("b")];
      var p2 := [RoleNeed("b"), RoleNeed("a")];
      SetOf(p1) == SetOf(p2) && GroupsFilter(p1) != GroupsFilter(p2)
  {
  }

  /** The decisions, unlike the filters, depend on the provided Needs only as
      a set. */
  lemma DecisionIgnoresOrder(g: Generator, over: Over, a1: Actor, a2: Actor, ips: IpConfig)
    requires a1.loginIp == a2.loginIp && SetOf(a1.provided) == SetOf(a2.provided)
    ensures GrantedBy(g, over, Env(a1, ips)) == GrantedBy(g, over, Env(a2, ips))
  {
  }

  /** `AnyUserIfPublic` lets everyone in unless the record says its metadata
      is restricted; its filter asks for an explicit `false`. */
  lemma AnyUserIfPublicGrant(over: Over, env: Env, d: Document)
    requires AnyUserNeed in env.actor.provided
    ensures AnyUserIfPublic.Excludes(over, env) == []
    ensures GrantedBy(AnyUserIfPublic, over, env) ==
      Ok(over.record.None? || !MetadataRestricted(over.record.value) || SuperUserAccess in env.actor.provided)
    ensures Matches(AnyUserIfPublic.QueryFilter(over, env).value, d) <==>
      HasValue(d, "_access.metadata_restricted", Flag(false))
  {
    var held := ProvidedSet(env.actor);
    var needs := PublicNeeds(over.record);
    AllowsIff(held, SetOf(needs), {});
    assert AnyUserNeed in held;
    if needs == [] {
      assert SetOf(needs) == {};
    } else {
      assert AnyUserNeed in SetOf(needs);
    }
  }

  /** `AllowedByAccessLevel` grants exactly the person identities listed
      under the action's levels. */
  lemma AccessLevelNeedsMeaning(action: string, r: Record, env: Env, n: Need)
    ensures n in AllowedByAccessLevel(action).Needs(Over(Some(r)), env).value <==>
      exists level, e :: level in AccessLevels(action) && e in LevelEntries(r, level)
        && IsPerson(e) && n == UserNeed(e.id.value)
  {
    var levels := AccessLevels(action);
    var es := AllowedIdentities(r, levels);
    if n in PersonNeeds(es) {
      var k :| 0 <= k < |es| && IsPerson(es[k]) && n == UserNeed(es[k].id.value);
      assert es[k] in es;
      var j :| 0 <= j < |levels| && es[k] in LevelEntries(r, levels[j]);
      assert levels[j] in levels;
    }
    if exists level, e :: level in levels && e in LevelEntries(r, level) && IsPerson(e) && n == UserNeed(e.id.value) {
      var level, e :| level in levels && e in LevelEntries(r, level) && IsPerson(e) && n == UserNeed(e.id.value);
      var j :| 0 <= j < |levels| && levels[j] == level;
      assert e in es;
      var k :| 0 <= k < |es| && es[k] == e;
    }
  }

  /** Without a record, or for an action with no access levels ("create",
      "delete" and every action not in the table), nobody is granted. */
  lemma AccessLevelNoNeeds(action: string, over: Over, env: Env)
    requires over.record.None? || (action != "read" && action != "update")
    ensures AllowedByAccessLevel(action).Needs(over, env) == Ok([])
  {
  }

  /** The access-level filter, whatever the configured action, tests the
      "read" level for the identity's first id, and is absent without one. */
  lemma AccessLevelFilterMeaning(action: string, over: Over, env: Env, d: Document)
    ensures AllowedByAccessLevel(action).QueryFilter(over, env).None? <==> FirstId(env.actor.provided).None?
    ensures AllowedByAccessLevel(action).QueryFilter(over, env) == AllowedByAccessLevel("read").QueryFilter(over, env)
    ensures FirstId(env.actor.provided).Some? ==>
      (Matches(AllowedByAccessLevel(action).QueryFilter(over, env).value, d) <==>
        HasValue(d, "internal.access_levels.metadata_curator", Identity("person", FirstId(env.actor.provided).value)))
  {
    assert AccessLevels("read") == ["metadata_curator"];
    assert "internal.access_levels." + "metadata_curator" == "internal.access_levels.metadata_curator";
    if FirstId(env.actor.provided).Some? {
      var id := FirstId(env.actor.provided).value;
      assert LevelTerms(["metadata_curator"], id) ==
        [Term("internal.access_levels.metadata_curator", Identity("person", id))];
    }
  }
}
