/** Role to scope resolution with per-tenant overrides, and the validated write of one role's
    scopes, as one caller sees it. Lists of scopes are sets here: they are sorted and free of
    duplicates wherever the service compares them. */
module RoleScopes {
  import opened Options

  type Id = nat

  datatype Role = Owner | Admin | Member | Readonly

  /** `ROLE_HIERARCHY`, most privileged first. */
  const HIERARCHY := [Owner, Admin, Member, Readonly]

  function RankOf(role: Role): (i: nat)
    ensures i < |HIERARCHY| && HIERARCHY[i] == role
  {
    match role
    case Owner => 0
    case Admin => 1
    case Member => 2
    case Readonly => 3
  }

  /** The scope catalogue, the OIDC protocol scopes, and any other text a caller may send. */
  datatype Scope =
    | TenantsAdmin
    | CredentialsOffer | CredentialsVerify | CredentialsHold | CredentialsRevoke
    | ConnectionsManage | ProfilesManage | UsersManage | ClientsManage
    | LogsRead | AuditRead
    | OpenId | Profile | Email | TenantClaim | OfflineAccess
    | Unlisted(name: string)

  type Scopes = set<Scope>

  const ALL_TENANT_SCOPES: Scopes := {
    CredentialsOffer, CredentialsVerify, CredentialsHold, CredentialsRevoke,
    ConnectionsManage, ProfilesManage, UsersManage, ClientsManage, LogsRead, AuditRead}

  const STANDARD_OIDC_SCOPES: Scopes := {OpenId, Profile, Email, TenantClaim, OfflineAccess}

  /** `isKnownScope` */
  predicate Known(s: Scope) { s == TenantsAdmin || s in ALL_TENANT_SCOPES }

  /** `expandEffectiveScopes` */
  function Expand(scopes: Scopes): Scopes {
    if TenantsAdmin in scopes then scopes + ALL_TENANT_SCOPES else scopes
  }

  lemma {:induction false} NothingLeft(a: Scopes, b: Scopes)
    ensures a - b == {} <==> a <= b
  {
    if a - b == {} {
      forall s | s in a ensures s in b { assert s !in a - b; }
    }
  }

  type RoleMap = map<Role, Scopes>

  function ScopesIn(m: RoleMap, role: Role): Scopes { if role in m then m[role] else {} }

  /** A tenant's override for a role wins outright, an empty one included; without a row the
      role inherits the default. */
  function Effective(defaults: RoleMap, overrides: RoleMap, role: Role): Scopes {
    if role in overrides then overrides[role] else ScopesIn(defaults, role)
  }

  // ----- the hierarchy ------------------------------------------------------------------

  /** Each role's expanded scopes lie inside those of the role just above it. */
  ghost predicate AdjacentContained(defaults: RoleMap, overrides: RoleMap) {
    forall i :: 0 < i < |HIERARCHY| ==>
      Expand(Effective(defaults, overrides, HIERARCHY[i])) <= Expand(Effective(defaults, overrides, HIERARCHY[i - 1]))
  }

  /** Each role's expanded scopes lie inside those of every role above it. */
  ghost predicate Contained(defaults: RoleMap, overrides: RoleMap) {
    forall low: Role, high: Role :: RankOf(high) <= RankOf(low) ==>
      Expand(Effective(defaults, overrides, low)) <= Expand(Effective(defaults, overrides, high))
  }

  lemma {:induction false} AdjacentIsEnough(defaults: RoleMap, overrides: RoleMap)
    ensures AdjacentContained(defaults, overrides) <==> Contained(defaults, overrides)
  {
    if AdjacentContained(defaults, overrides) {
      forall low: Role, high: Role | RankOf(high) <= RankOf(low)
        ensures Expand(Effective(defaults, overrides, low)) <= Expand(Effective(defaults, overrides, high))
      {
        ClimbHierarchy(defaults, overrides, RankOf(high), RankOf(low));
      }
    } else {
      var i :| 0 < i < |HIERARCHY| && !(Expand(Effective(defaults, overrides, HIERARCHY[i]))
                                        <= Expand(Effective(defaults, overrides, HIERARCHY[i - 1])));
      assert RankOf(HIERARCHY[i - 1]) <= RankOf(HIERARCHY[i]);
    }
  }

  lemma {:induction false} ClimbHierarchy(defaults: RoleMap, overrides: RoleMap, i: nat, j: nat)
    requires AdjacentContained(defaults, overrides) && i <= j < |HIERARCHY|
    ensures Expand(Effective(defaults, overrides, HIERARCHY[j])) <= Expand(Effective(defaults, overrides, HIERARCHY[i]))
    decreases j
  {
    if i < j { ClimbHierarchy(defaults, overrides, i, j - 1); }
  }

  /** What the role at `rank` holds beyond the role just above it. */
  function Excess(defaults: RoleMap, overrides: RoleMap, rank: nat): Scopes
    requires 0 < rank < |HIERARCHY|
  {
    var child, parent := HIERARCHY[rank], HIERARCHY[rank - 1];
    Expand(Effective(defaults, overrides, child)) - Expand(Effective(defaults, overrides, parent))
  }

  datatype Violation = Violation(role: Role, scopes: Scopes)

  /** `assertHierarchy`: the most privileged role that holds scopes its parent lacks, with those
      scopes, if there is one. */
  method CheckHierarchy(defaults: RoleMap, overrides: RoleMap) returns (violation: Option<Violation>)
    ensures violation.None? <==> Contained(defaults, overrides)
    ensures violation.Some? ==>
      var rank := RankOf(violation.value.role);
      && rank > 0 && violation.value.scopes == Excess(defaults, overrides, rank) != {}
      && forall i :: 0 < i < rank ==> Excess(defaults, overrides, i) == {}
  {
    AdjacentIsEnough(defaults, overrides);
    for index := 1 to |HIERARCHY|
      invariant forall i :: 0 < i < index ==> Excess(defaults, overrides, i) == {}
      invariant forall i :: 0 < i < index ==>
        Expand(Effective(defaults, overrides, HIERARCHY[i])) <= Expand(Effective(defaults, overrides, HIERARCHY[i - 1]))
    {
      var parent, child := HIERARCHY[index - 1], HIERARCHY[index];
      var excess := Expand(Effective(defaults, overrides, child)) - Expand(Effective(defaults, overrides, parent));
      NothingLeft(Expand(Effective(defaults, overrides, child)), Expand(Effective(defaults, overrides, parent)));
      if excess != {} {
        assert RankOf(child) == index;
        return Some(Violation(child, excess));
      }
    }
    return None;
  }

  /** The table migration `000013` seeds. */
  const SEEDED: RoleMap := map[
    Owner := {TenantsAdmin},
    Admin := ALL_TENANT_SCOPES,
    Member := {CredentialsOffer, CredentialsVerify}]

  lemma {:induction false} SeededDefaultsContained()
    ensures Contained(SEEDED, map[])
  {
    AdjacentIsEnough(SEEDED, map[]);
  }

  /** The owner is superuser, the admin has every tenant scope, the member offers and verifies,
      and the reader has nothing. */
  lemma {:induction false} SeededScopes()
    ensures forall s: Scope ::
              && (s in ScopesIn(SEEDED, Owner) <==> s == TenantsAdmin)
              && (s in ScopesIn(SEEDED, Admin) <==> TenantScope(s))
              && (s in ScopesIn(SEEDED, Member) <==> s == CredentialsOffer || s == CredentialsVerify)
              && s !in ScopesIn(SEEDED, Readonly)
  {}

  // ----- one write ----------------------------------------------------------------------

  datatype Change = Replace(scopes: Scopes) | Reset

  datatype Request = Request(
    tenant: Id, role: Role, change: Change, actorScopes: Scopes, actorIsPlatformAdmin: bool)

  datatype Error = RoleImmutable | UnknownScope | ScopeNotAssignable | ScopeEscalation | HierarchyViolation

  datatype Source = FromDefault | FromOverride

  datatype Action = Update | Delete | Revoke

  /** A `tenant_role_scope` audit entry with the metadata that describes the change. */
  datatype Entry = Entry(tenant: Id, role: Role, action: Action, previous: Scopes, scopes: Scopes, removed: Scopes)

  datatype Outcome =
    | Accepted(after: RoleMap, scopes: Scopes, narrowed: bool, audit: Option<Entry>)
    | Rejected(error: Error)

  function SourceOf(overrides: RoleMap, role: Role): Source {
    if role in overrides then FromOverride else FromDefault
  }

  /** The checks made before the transaction opens. */
  function Precheck(request: Request): Option<Error> {
    if request.role == Owner then Some(RoleImmutable)
    else if request.change.Reset? then None
    else if exists s :: s in request.change.scopes && !Known(s) then Some(UnknownScope)
    else if TenantsAdmin in request.change.scopes then Some(ScopeNotAssignable)
    else None
  }

  /** The upsert or the delete. */
  function Apply(overrides: RoleMap, request: Request): RoleMap {
    if request.change.Replace? then overrides[request.role := request.change.scopes]
    else overrides - {request.role}
  }

  function RequestedScopes(defaults: RoleMap, request: Request): Scopes {
    if request.change.Replace? then request.change.scopes else ScopesIn(defaults, request.role)
  }

  predicate Escalates(scopes: Scopes, request: Request) {
    !request.actorIsPlatformAdmin && !(scopes <= Expand(request.actorScopes))
  }

  /** What the transaction decides from the mapping it read before its write and the one it read
      after it. */
  ghost function Judge(defaults: RoleMap, before: RoleMap, after: RoleMap, request: Request): Outcome {
    var previous, scopes := Effective(defaults, before, request.role), RequestedScopes(defaults, request);
    var source := if request.change.Replace? then FromOverride else FromDefault;
    var removed := Expand(previous) - Expand(scopes);
    if Escalates(scopes, request) then Rejected(ScopeEscalation)
    else if !Contained(defaults, after) then Rejected(HierarchyViolation)
    else
      Accepted(after, scopes, removed != {},
        if SourceOf(before, request.role) == source && previous == scopes then None
        else Some(Entry(request.tenant, request.role, if request.change.Replace? then Update else Delete,
                        previous, scopes, removed)))
  }

  /** A whole write run alone against a tenant's overrides. */
  ghost function WriteMapping(defaults: RoleMap, before: RoleMap, request: Request): Outcome {
    if Precheck(request).Some? then Rejected(Precheck(request).value)
    else Judge(defaults, before, Apply(before, request), request)
  }

  // ----- when a write is accepted -------------------------------------------------------

  /** The Level 2 and Level 3 scopes, by name. */
  predicate TenantScope(s: Scope) {
    || s == CredentialsOffer || s == CredentialsVerify || s == CredentialsHold || s == CredentialsRevoke
    || s == ConnectionsManage || s == ProfilesManage || s == UsersManage || s == ClientsManage
    || s == LogsRead || s == AuditRead
  }

  /** Holding `held` gives the scope: it is one of them, or a tenant scope and the superuser
      scope is one of them. */
  predicate Gives(held: Scopes, s: Scope) { s in held || (TenantsAdmin in held && TenantScope(s)) }

  lemma {:induction false} ExpandGives(held: Scopes, s: Scope)
    ensures s in Expand(held) <==> Gives(held, s)
  {}

  /** The tenant's table as the request would leave it. */
  function TableAfter(before: RoleMap, request: Request): RoleMap {
    match request.change
    case Replace(scopes) => map r | r in before.Keys + {request.role} :: if r == request.role then scopes else before[r]
    case Reset => map r | r in before && r != request.role :: before[r]
  }

  /** Whether the role would get a scope that the actor's own scopes do not give. */
  predicate BeyondActor(defaults: RoleMap, request: Request) {
    match request.change
    case Replace(scopes) => exists s :: s in scopes && !Gives(request.actorScopes, s)
    case Reset => request.role in defaults && exists s :: s in defaults[request.role] && !Gives(request.actorScopes, s)
  }

  lemma {:induction false} AppliedTable(before: RoleMap, request: Request)
    ensures Apply(before, request) == TableAfter(before, request)
  {
    assert Apply(before, request).Keys == TableAfter(before, request).Keys;
  }

  lemma {:induction false} EscalatesExactly(defaults: RoleMap, request: Request)
    ensures Escalates(RequestedScopes(defaults, request), request)
            <==> !request.actorIsPlatformAdmin && BeyondActor(defaults, request)
  {
    var scopes := RequestedScopes(defaults, request);
    forall s ensures s in Expand(request.actorScopes) <==> Gives(request.actorScopes, s) {
      ExpandGives(request.actorScopes, s);
    }
    if !(scopes <= Expand(request.actorScopes)) {
      var s :| s in scopes && s !in Expand(request.actorScopes);
      assert !Gives(request.actorScopes, s);
    }
  }

  /** Which error a refused write gets: the first of these conditions that fails, in this order.
      A write that none of them stops is accepted. */
  lemma {:induction false} RefusedInOrder(defaults: RoleMap, before: RoleMap, request: Request)
    ensures var out, change := WriteMapping(defaults, before, request), request.change;
            if request.role == Owner then out == Rejected(RoleImmutable)
            else if change.Replace? && exists s :: s in change.scopes && s != TenantsAdmin && !TenantScope(s)
            then out == Rejected(UnknownScope)
            else if change.Replace? && TenantsAdmin in change.scopes then out == Rejected(ScopeNotAssignable)
            else if !request.actorIsPlatformAdmin && BeyondActor(defaults, request)
            then out == Rejected(ScopeEscalation)
            else if !Contained(defaults, TableAfter(before, request)) then out == Rejected(HierarchyViolation)
            else out.Accepted? && out.after == TableAfter(before, request)
  {
    AppliedTable(before, request);
    EscalatesExactly(defaults, request);
    assert forall s :: Known(s) <==> s == TenantsAdmin || TenantScope(s);
  }

  /** A write is accepted if and only if it is not about the owner, a replacement names tenant
      scopes only, the actor is a platform admin or holds every scope the role would get, and the
      table it would leave keeps the hierarchy. */
  lemma {:induction false} AcceptedExactly(defaults: RoleMap, before: RoleMap, request: Request)
    ensures WriteMapping(defaults, before, request).Accepted?
            <==> && request.role != Owner
                 && (request.change.Replace? ==> forall s :: s in request.change.scopes ==> TenantScope(s))
                 && (request.actorIsPlatformAdmin || !BeyondActor(defaults, request))
                 && Contained(defaults, TableAfter(before, request))
  {
    RefusedInOrder(defaults, before, request);
    if request.change.Replace? && forall s :: s in request.change.scopes ==> TenantScope(s) {
      assert TenantsAdmin !in request.change.scopes;
    }
  }

  /** No override gives a role the superuser scope. */
  predicate NoSuperuser(overrides: RoleMap) { forall r :: r in overrides ==> TenantsAdmin !in overrides[r] }

  /** What an accepted write leaves behind: the containment, the owner's default, the other
      roles, and the scopes it promised for its own. */
  lemma {:induction false} AcceptedWrite(defaults: RoleMap, before: RoleMap, request: Request)
    requires WriteMapping(defaults, before, request).Accepted?
    ensures var out := WriteMapping(defaults, before, request);
            && Contained(defaults, out.after)
            && (Owner !in before ==> Owner !in out.after)
            && Effective(defaults, out.after, request.role) == out.scopes
            && (forall r: Role :: r != request.role ==>
                  Effective(defaults, out.after, r) == Effective(defaults, before, r))
            && (out.narrowed <==> !(Expand(Effective(defaults, before, request.role)) <= Expand(out.scopes)))
            && (out.audit.None? <==> out.after == before)
            && (NoSuperuser(before) ==> NoSuperuser(out.after))
            && (!request.actorIsPlatformAdmin ==> out.scopes <= Expand(request.actorScopes))
  {
    var out := WriteMapping(defaults, before, request);
    NothingLeft(Expand(Effective(defaults, before, request.role)), Expand(out.scopes));
    if out.audit.None? {
      if request.change.Replace? {
        assert before[request.role] == request.change.scopes;
        assert before[request.role := request.change.scopes] == before;
      } else {
        assert before - {request.role} == before;
      }
    }
  }

  /** A write's audit entry names its tenant and role, the role's scopes before and after, and
      exactly what it took away. */
  lemma {:induction false} AuditEntryTellsChange(defaults: RoleMap, before: RoleMap, request: Request)
    requires WriteMapping(defaults, before, request).Accepted? && WriteMapping(defaults, before, request).audit.Some?
    ensures var out := WriteMapping(defaults, before, request);
            var entry, role := out.audit.value, request.role;
            && entry.tenant == request.tenant && entry.role == role
            && entry.previous == Effective(defaults, before, role)
            && entry.scopes == Effective(defaults, out.after, role)
            && entry.removed == Expand(Effective(defaults, before, role)) - Expand(Effective(defaults, out.after, role))
            && (entry.action == Update <==> role in out.after) && (entry.action == Delete <==> role !in out.after)
            && (out.narrowed <==> entry.removed != {})
  {
    AcceptedWrite(defaults, before, request);
  }

  // ----- replaying the audit log --------------------------------------------------------

  /** Rebuilds a tenant's override table from its UPDATE and DELETE entries. */
  function Replay(audit: seq<Entry>, tenant: Id): RoleMap {
    if audit == [] then map[]
    else
      var table, entry := Replay(audit[..|audit| - 1], tenant), audit[|audit| - 1];
      if entry.tenant != tenant then table
      else
        match entry.action
        case Update => table[entry.role := entry.scopes]
        case Delete => table - {entry.role}
        case Revoke => table
  }

  lemma {:induction false} ReplayMore(audit: seq<Entry>, entry: Entry, tenant: Id)
    ensures Replay(audit + [entry], tenant) ==
      var table := Replay(audit, tenant);
      if entry.tenant != tenant || entry.action == Revoke then table
      else if entry.action == Update then table[entry.role := entry.scopes]
      else table - {entry.role}
  {
    assert (audit + [entry])[..|audit|] == audit;
  }

  /** Each entry's previous scopes are what replay gives for its role just before it. */
  ghost predicate PreviousMatches(defaults: RoleMap, audit: seq<Entry>) {
    forall i :: 0 <= i < |audit| && audit[i].action != Revoke ==>
      audit[i].previous == Effective(defaults, Replay(audit[..i], audit[i].tenant), audit[i].role)
  }

  /** The entry an accepted write adds replays to the table it leaves. */
  lemma {:induction false} AuditedWrite(defaults: RoleMap, audit: seq<Entry>, request: Request)
    requires WriteMapping(defaults, Replay(audit, request.tenant), request).Accepted?
    requires PreviousMatches(defaults, audit)
    ensures var out := WriteMapping(defaults, Replay(audit, request.tenant), request);
            var more := if out.audit.Some? then audit + [out.audit.value] else audit;
            && PreviousMatches(defaults, more)
            && Replay(more, request.tenant) == out.after
            && (forall t: Id :: t != request.tenant ==> Replay(more, t) == Replay(audit, t))
  {
    var before := Replay(audit, request.tenant);
    var out := WriteMapping(defaults, before, request);
    AcceptedWrite(defaults, before, request);
    if out.audit.Some? {
      var entry := out.audit.value;
      var more := audit + [entry];
      forall t: Id ensures t != request.tenant ==> Replay(more, t) == Replay(audit, t) { ReplayMore(audit, entry, t); }
      ReplayMore(audit, entry, request.tenant);
      forall i | 0 <= i < |more| && more[i].action != Revoke
        ensures more[i].previous == Effective(defaults, Replay(more[..i], more[i].tenant), more[i].role)
      {
        assert more[..i] == audit[..i];
        if i == |audit| { assert audit[..i] == audit; }
      }
    }
  }

  // ----- the service --------------------------------------------------------------------

  /** What a caller gets: the role with its new scopes and where they come from, or the error. */
  datatype WriteResult = Stored(role: Role, scopes: Scopes, source: Source) | Refused(error: Error)

  class RoleScopeService {
    const defaults: RoleMap
    var overrides: map<Id, RoleMap>
    var audit: seq<Entry>

    function TableOf(tenant: Id): RoleMap
      reads this
    {
      if tenant in overrides then overrides[tenant] else map[]
    }

    constructor (defaults: RoleMap)
      ensures this.defaults == defaults && overrides == map[] && audit == []
    {
      this.defaults := defaults;
      overrides, audit := map[], [];
    }

    /** `replaceRoleScopes` and `resetRoleScopes` through `writeMapping`; a rejected write rolls
        back. */
    method Write(request: Request) returns (result: WriteResult, narrowed: bool)
      modifies this`overrides, this`audit
      ensures var out := WriteMapping(defaults, old(TableOf(request.tenant)), request);
              match out
              case Rejected(error) =>
                result == Refused(error) && !narrowed && overrides == old(overrides) && audit == old(audit)
              case Accepted(after, scopes, _, entry) =>
                && result == Stored(request.role, scopes, SourceOf(after, request.role)) && narrowed == out.narrowed
                && scopes == Effective(defaults, after, request.role)
                && overrides == old(overrides)[request.tenant := after]
                && audit == old(audit) + (if entry.Some? then [entry.value] else [])
    {
      narrowed := false;
      var refused := Precheck(request);
      if refused.Some? {
        return Refused(refused.value), false;
      }
      var before := TableOf(request.tenant);
      var previous := Effective(defaults, before, request.role);
      var after := Apply(before, request);
      var scopes := RequestedScopes(defaults, request);
      if Escalates(scopes, request) {
        return Refused(ScopeEscalation), false;
      }
      var violation := CheckHierarchy(defaults, after);
      if violation.Some? {
        return Refused(HierarchyViolation), false;
      }
      overrides := overrides[request.tenant := after];
      var removed := Expand(previous) - Expand(scopes);
      narrowed := removed != {};
      var source := if request.change.Replace? then FromOverride else FromDefault;
      if SourceOf(before, request.role) != source || previous != scopes {
        var action := if request.change.Replace? then Update else Delete;
        audit := audit + [Entry(request.tenant, request.role, action, previous, scopes, removed)];
      }
      result := Stored(request.role, scopes, source);
    }
  }
}
