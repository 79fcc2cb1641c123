/** The `oidc_model` table as the session features use it: the concurrent-session cap with its
    cascade to grants and tokens, the deletes by account and by role, and the rebinding of
    browser sessions when a user switches tenant. */
module OidcStore {
  import opened Options
  import opened Cardinality

  type Id = nat
  type Time = int

  datatype Model =
    | Session | Grant | AccessToken | RefreshToken | AuthorizationCode | DeviceCode
    | BackchannelAuthenticationRequest | Other(kind: nat)

  /** `ACCOUNT_BOUND_MODELS` */
  predicate AccountBound(m: Model) { !m.Other? }

  /** One entry of a session payload's `authorizations` map: an object with or without a
      string `grantId`, or something that is no object. */
  datatype Authorization = Entry(grantId: Option<Id>) | NotAnObject

  /** A row is found by its (model_name, oidc_id) pair. */
  datatype Key = Key(model: Model, id: Id)

  datatype Row = Row(
    account: Option<Id>, grant: Option<Id>, expiresAt: Option<Time>, createdAt: Time,
    authorizations: Option<map<Id, Authorization>>)

  type Table = map<Key, Row>

  predicate Live(row: Row, now: Time) { row.expiresAt.None? || row.expiresAt.value > now }

  /** `extractGrantIds` */
  function GrantIds(row: Row): set<Id> {
    if row.authorizations.None? then {}
    else
      var entries := row.authorizations.value;
      set c | c in entries && entries[c].Entry? && entries[c].grantId.Some? :: entries[c].grantId.value
  }

  function ActiveSessions(rows: Table, account: Id, now: Time): set<Id> {
    set k | k in rows && k.model == Session && rows[k].account == Some(account) && Live(rows[k], now) :: k.id
  }

  /** A session counts as long as it has not reached its expiry. */
  lemma {:induction false} ActiveExactly(rows: Table, account: Id, now: Time, i: Id)
    ensures i in ActiveSessions(rows, account, now)
            <==> && Key(Session, i) in rows && rows[Key(Session, i)].account == Some(account)
                 && (rows[Key(Session, i)].expiresAt == None || now < rows[Key(Session, i)].expiresAt.value)
  {
    if Key(Session, i) in rows { assert Key(Session, i).id == i; }
  }

  // ----- choosing whom to evict ---------------------------------------------------------

  function CreatedAt(rows: Table, id: Id): Time
    requires Key(Session, id) in rows
  {
    rows[Key(Session, id)].createdAt
  }

  /** `ORDER BY created_at DESC, oidc_id DESC`: whether `a` comes before `b`. */
  predicate Newer(rows: Table, a: Id, b: Id)
    requires Key(Session, a) in rows && Key(Session, b) in rows
  {
    CreatedAt(rows, a) > CreatedAt(rows, b) || (CreatedAt(rows, a) == CreatedAt(rows, b) && a > b)
  }

  /** Later created is newer; of sessions created together the greater id is. One of two sessions
      is always newer than the other. */
  lemma {:induction false} NewerExactly(rows: Table, a: Id, b: Id)
    requires Key(Session, a) in rows && Key(Session, b) in rows
    ensures var older, newer := rows[Key(Session, b)].createdAt, rows[Key(Session, a)].createdAt;
            && (older < newer ==> Newer(rows, a, b)) && (newer < older ==> !Newer(rows, a, b))
            && (older == newer ==> (Newer(rows, a, b) <==> b < a))
    ensures a != b ==> (Newer(rows, a, b) <==> !Newer(rows, b, a))
  {}

  predicate Stored(rows: Table, ids: set<Id>) { forall i :: i in ids ==> Key(Session, i) in rows }

  function NewerThan(rows: Table, ids: set<Id>, v: Id): set<Id>
    requires Stored(rows, ids) && v in ids
  {
    set u | u in ids && Newer(rows, u, v)
  }

  /** `OFFSET keep`: everything but the `keep` newest. */
  function Surplus(rows: Table, ids: set<Id>, keep: nat): set<Id>
    requires Stored(rows, ids)
  {
    set v | v in ids && |NewerThan(rows, ids, v)| >= keep
  }

  lemma {:induction false} Oldest(rows: Table, ids: set<Id>) returns (o: Id)
    requires Stored(rows, ids) && ids != {}
    ensures o in ids && NewerThan(rows, ids, o) == ids - {o}
    decreases |ids|
  {
    o :| o in ids;
    if ids == {o} {
    } else {
      assert ids - {o} != {};
      var p := Oldest(rows, ids - {o});
      if Newer(rows, o, p) {
        assert NewerThan(rows, ids, p) == NewerThan(rows, ids - {o}, p) + {o};
        o := p;
      } else {
        forall u | u in ids - {o} ensures Newer(rows, u, o) {
          if u != p { assert u in NewerThan(rows, ids - {o}, p); }
        }
      }
    }
  }

  /** Exactly the `keep` newest stay, and each of them is newer than each evicted one. */
  lemma {:induction false} SurplusLeavesNewest(rows: Table, ids: set<Id>, keep: nat)
    requires Stored(rows, ids)
    ensures |ids - Surplus(rows, ids, keep)| == (if |ids| <= keep then |ids| else keep)
    ensures forall k, v :: k in ids && k !in Surplus(rows, ids, keep) && v in Surplus(rows, ids, keep) ==>
              Newer(rows, k, v)
    decreases |ids|
  {
    KeptSize(rows, ids, keep);
    forall k, v | k in ids && k !in Surplus(rows, ids, keep) && v in Surplus(rows, ids, keep)
      ensures Newer(rows, k, v)
    {
      if !Newer(rows, k, v) { SubsetSize(NewerThan(rows, ids, v) + {v}, NewerThan(rows, ids, k)); }
    }
  }

  lemma {:induction false} KeptSize(rows: Table, ids: set<Id>, keep: nat)
    requires Stored(rows, ids)
    ensures |ids - Surplus(rows, ids, keep)| == (if |ids| <= keep then |ids| else keep)
    decreases |ids|
  {
    if ids != {} {
      var o := Oldest(rows, ids);
      var rest := ids - {o};
      KeptSize(rows, rest, keep);
      SurplusWithoutOldest(rows, ids, keep, o);
    }
  }

  lemma {:induction false} SurplusWithoutOldest(rows: Table, ids: set<Id>, keep: nat, o: Id)
    requires Stored(rows, ids) && o in ids && NewerThan(rows, ids, o) == ids - {o}
    ensures ids - Surplus(rows, ids, keep)
         == ((ids - {o}) - Surplus(rows, ids - {o}, keep)) + (if |ids| - 1 >= keep then {} else {o})
  {
    var rest := ids - {o};
    forall v | v in rest ensures v in Surplus(rows, rest, keep) <==> v in Surplus(rows, ids, keep) {
      assert v in NewerThan(rows, ids, o);
      assert NewerThan(rows, rest, v) == NewerThan(rows, ids, v);
    }
    assert |rest| == |ids| - 1;
  }

  /** `ORDER BY created_at DESC, oidc_id DESC LIMIT keep`, one row at a time. */
  method KeepNewest(rows: Table, ids: set<Id>, keep: nat) returns (kept: set<Id>)
    requires Stored(rows, ids)
    ensures kept <= ids && |kept| == (if |ids| <= keep then |ids| else keep)
    ensures forall k, v :: k in kept && v in ids - kept ==> Newer(rows, k, v)
  {
    kept := {};
    while ids - kept != {} && |kept| < keep
      invariant kept <= ids && |kept| <= keep
      invariant forall k, v :: k in kept && v in ids - kept ==> Newer(rows, k, v)
      decreases keep - |kept|
    {
      var left := ids - kept;
      var m :| m in left;
      var todo := left - {m};
      while todo != {}
        invariant m in left && todo <= left && m !in todo
        invariant forall i :: i in left - todo && i != m ==> Newer(rows, m, i)
        decreases |todo|
      {
        var i :| i in todo;
        assert Newer(rows, i, m) || Newer(rows, m, i);
        if Newer(rows, i, m) {
          forall j | j in left - todo ensures Newer(rows, i, j) { assert j == m || Newer(rows, m, j); }
          m := i;
        }
        todo := todo - {i};
      }
      kept := kept + {m};
    }
    SubsetSize(kept, ids);
    if ids - kept == {} { assert kept == ids; }
  }

  /** Of `ids`, `evicted` leaves at most `keep`, no fewer than that if it takes any, and none older
      than any it takes. */
  ghost predicate JustTheOldest(rows: Table, ids: set<Id>, keep: nat, evicted: set<Id>)
    requires Stored(rows, ids)
  {
    && evicted <= ids && |ids - evicted| <= keep && (evicted != {} ==> |ids - evicted| == keep)
    && forall k, v :: k in ids - evicted && v in evicted ==> Newer(rows, k, v)
  }

  /** `OFFSET keep`: what is left of the order behind the newest `keep`. */
  method SelectSurplus(rows: Table, ids: set<Id>, keep: nat) returns (evicted: set<Id>)
    requires Stored(rows, ids)
    ensures evicted == Surplus(rows, ids, keep) && JustTheOldest(rows, ids, keep, evicted)
  {
    var kept := KeepNewest(rows, ids, keep);
    NewestAreKept(rows, ids, keep, kept);
    evicted := ids - kept;
    assert ids - evicted == kept;
    SubsetSize(kept, ids);
  }

  /** The `keep` newest are what the surplus leaves. */
  lemma {:induction false} NewestAreKept(rows: Table, ids: set<Id>, keep: nat, kept: set<Id>)
    requires Stored(rows, ids) && kept <= ids && |kept| == (if |ids| <= keep then |ids| else keep)
    requires forall k, v :: k in kept && v in ids - kept ==> Newer(rows, k, v)
    ensures ids - kept == Surplus(rows, ids, keep)
  {
    forall v | v in ids ensures v in Surplus(rows, ids, keep) <==> v !in kept {
      if v in kept {
        forall u | u in NewerThan(rows, ids, v) ensures u in kept - {v} { assert u !in kept ==> Newer(rows, v, u); }
        SubsetSize(NewerThan(rows, ids, v), kept - {v});
      } else {
        SubsetSize(kept, NewerThan(rows, ids, v));
        SubsetSize(kept, ids - {v});
      }
    }
  }

  // ----- the statements -----------------------------------------------------------------

  /** `keep` before `Math.max(keep, 0)`: the new session takes one slot of the limit. */
  function Keep(limit: int, newSession: Option<Id>): nat {
    var keep := if newSession.Some? then limit - 1 else limit;
    if keep < 0 then 0 else keep
  }

  function Candidates(rows: Table, account: Id, newSession: Option<Id>, now: Time): set<Id> {
    ActiveSessions(rows, account, now) - (if newSession.Some? then {newSession.value} else {})
  }

  function Claimed(rows: Table, account: Id, limit: int, newSession: Option<Id>, now: Time): set<Id> {
    Surplus(rows, Candidates(rows, account, newSession, now), Keep(limit, newSession))
  }

  function WithoutSessions(rows: Table, ids: set<Id>): Table {
    map k | k in rows && !(k.model == Session && k.id in ids) :: rows[k]
  }

  function GrantsOf(rows: Table, ids: set<Id>): set<Id> {
    set i, g | i in ids && Key(Session, i) in rows && g in GrantIds(rows[Key(Session, i)]) :: g
  }

  /** Some session among `ids` has an authorization whose object names the grant. */
  ghost predicate NamedBy(rows: Table, ids: set<Id>, grant: Id) {
    exists i, c :: i in ids && Authorizes(rows, i, c, grant)
  }

  predicate Authorizes(rows: Table, i: Id, client: Id, grant: Id) {
    && Key(Session, i) in rows && rows[Key(Session, i)].authorizations.Some?
    && client in rows[Key(Session, i)].authorizations.value
    && rows[Key(Session, i)].authorizations.value[client] == Entry(Some(grant))
  }

  lemma {:induction false} GrantsAreNamed(rows: Table, ids: set<Id>, grant: Id)
    ensures grant in GrantsOf(rows, ids) <==> NamedBy(rows, ids, grant)
  {
    if grant in GrantsOf(rows, ids) {
      var i :| i in ids && Key(Session, i) in rows && grant in GrantIds(rows[Key(Session, i)]);
      var entries := rows[Key(Session, i)].authorizations.value;
      var c :| c in entries && entries[c].Entry? && entries[c].grantId == Some(grant);
      assert Authorizes(rows, i, c, grant);
    }
    if NamedBy(rows, ids, grant) {
      var i, c :| i in ids && Authorizes(rows, i, c, grant);
      assert grant in GrantIds(rows[Key(Session, i)]);
    }
  }

  /** The grants of all the sessions together. */
  method CollectGrants(rows: Table, ids: set<Id>) returns (grants: set<Id>)
    requires Stored(rows, ids)
    ensures grants == GrantsOf(rows, ids) && forall g :: g in grants <==> NamedBy(rows, ids, g)
  {
    grants := {};
    var todo := ids;
    assert ids - todo == {} && GrantsOf(rows, {}) == {};
    while todo != {}
      invariant todo <= ids && grants == GrantsOf(rows, ids - todo)
      decreases |todo|
    {
      var i :| i in todo;
      GrantsOfOneMore(rows, ids - todo, i);
      grants := grants + GrantIds(rows[Key(Session, i)]);
      assert ids - (todo - {i}) == ids - todo + {i};
      todo := todo - {i};
    }
    assert ids - todo == ids;
    forall g ensures g in grants <==> NamedBy(rows, ids, g) { GrantsAreNamed(rows, ids, g); }
  }

  lemma {:induction false} GrantsOfOneMore(rows: Table, ids: set<Id>, i: Id)
    requires Key(Session, i) in rows
    ensures GrantsOf(rows, ids + {i}) == GrantsOf(rows, ids) + GrantIds(rows[Key(Session, i)])
  {
    var all := GrantsOf(rows, ids + {i});
    forall g | g in GrantsOf(rows, ids) + GrantIds(rows[Key(Session, i)]) ensures g in all {
      if g in GrantIds(rows[Key(Session, i)]) { assert i in ids + {i}; }
    }
  }

  /** The delete of `deleteSessions`. */
  function WithoutSessionsAndGrants(rows: Table, ids: set<Id>, grants: set<Id>): Table {
    map k | k in rows
      && !(k.model == Session && k.id in ids)
      && !(rows[k].grant.Some? && rows[k].grant.value in grants)
      && !(k.model == Grant && k.id in grants)
      :: rows[k]
  }

  function GrantsHeldBy(rows: Table, accounts: set<Id>): set<Id> {
    set k | k in rows && k.model == Grant && rows[k].account.Some? && rows[k].account.value in accounts :: k.id
  }

  predicate BoundTo(k: Key, row: Row, accounts: set<Id>) {
    AccountBound(k.model) && row.account.Some? && row.account.value in accounts
  }

  /** The delete shared by `deleteAllForAccount` (one account) and `deleteAllForTenantRole` (the
      accounts of every user holding the role). */
  function WithoutAccounts(rows: Table, accounts: set<Id>): Table {
    map k | k in rows
      && !BoundTo(k, rows[k], accounts)
      && !(rows[k].grant.Some? && rows[k].grant.value in GrantsHeldBy(rows, accounts))
      :: rows[k]
  }

  // ----- the session cap ----------------------------------------------------------------

  /** oidc-provider gives sessions no grant id of their own. */
  predicate SessionsCarryNoGrant(rows: Table) {
    forall k :: k in rows && k.model == Session ==> rows[k].grant.None?
  }

  function Enforced(rows: Table, account: Id, limit: int, newSession: Option<Id>, now: Time): Table {
    if limit == 0 then rows
    else
      var evicted := Claimed(rows, account, limit, newSession, now);
      if evicted == {} then rows
      else WithoutSessionsAndGrants(WithoutSessions(rows, evicted), evicted, GrantsOf(rows, evicted))
  }

  /** Gone are the evicted sessions, the grants they name and the rows under those grants;
      every other row is as it was. */
  ghost predicate RemovesExactly(rows: Table, end: Table, evicted: set<Id>) {
    && (forall k :: k in end <==>
          && k in rows
          && !(k.model == Session && k.id in evicted)
          && !(k.model == Grant && NamedBy(rows, evicted, k.id))
          && !(rows[k].grant.Some? && NamedBy(rows, evicted, rows[k].grant.value)))
    && (forall k :: k in end ==> end[k] == rows[k])
  }

  /** Whether none of the sessions carries the id of a grant that an evicted session names. */
  ghost predicate ClearOf(rows: Table, ids: set<Id>, evicted: set<Id>) {
    forall i :: i in ids && Key(Session, i) in rows ==>
      var grant := rows[Key(Session, i)].grant;
      grant.None? || !NamedBy(rows, evicted, grant.value)
  }

  /** Enforcement that runs alone removes exactly the claimed sessions, their grants and the rows
      under those grants. It leaves all other live sessions if and only if none of them hangs off
      such a grant, as no session does whose row carries no grant id; it then leaves
      min(prior, limit) of them, the new one included, and has evicted only sessions older than
      every other one it keeps. */
  lemma {:induction false} EnforceAlone(rows: Table, account: Id, limit: nat, newSession: Option<Id>, now: Time)
    requires limit > 0
    requires newSession.Some? ==> newSession.value in ActiveSessions(rows, account, now)
    ensures var end := Enforced(rows, account, limit, newSession, now);
            var prior, left := ActiveSessions(rows, account, now), ActiveSessions(end, account, now);
            var claimed := Claimed(rows, account, limit, newSession, now);
            && RemovesExactly(rows, end, claimed)
            && (left == prior - claimed <==> ClearOf(rows, prior - claimed, claimed))
            && (SessionsCarryNoGrant(rows) ==> ClearOf(rows, prior - claimed, claimed))
            && (ClearOf(rows, prior - claimed, claimed) ==>
                  && |left| == (if |prior| <= limit then |prior| else limit)
                  && (newSession.Some? ==> newSession.value in left)
                  && (forall v, k :: v in prior - left && k in left && Some(k) != newSession ==> Newer(rows, k, v)))
  {
    ClaimLeaves(rows, account, limit, newSession, now);
    EnforcedSessions(rows, account, limit, newSession, now);
    var prior, claimed := ActiveSessions(rows, account, now), Claimed(rows, account, limit, newSession, now);
    assert prior - (prior - claimed) == claimed;
  }

  lemma {:induction false} EnforcedBy(
      rows: Table, account: Id, limit: int, newSession: Option<Id>, now: Time, evicted: set<Id>)
    requires limit != 0 && evicted == Claimed(rows, account, limit, newSession, now)
    ensures var left := WithoutSessions(rows, evicted);
            Enforced(rows, account, limit, newSession, now)
            == if evicted == {} then left else WithoutSessionsAndGrants(left, evicted, GrantsOf(rows, evicted))
  {
    assert evicted == {} ==> WithoutSessions(rows, evicted) == rows;
  }

  lemma {:induction false} ClaimLeaves(rows: Table, account: Id, limit: nat, newSession: Option<Id>, now: Time)
    requires limit > 0
    requires newSession.Some? ==> newSession.value in ActiveSessions(rows, account, now)
    ensures var prior, evicted := ActiveSessions(rows, account, now), Claimed(rows, account, limit, newSession, now);
            && evicted <= prior && (newSession.Some? ==> newSession.value !in evicted)
            && |prior - evicted| == (if |prior| <= limit then |prior| else limit)
            && (forall v, k :: v in evicted && k in prior - evicted && Some(k) != newSession ==> Newer(rows, k, v))
  {
    var prior, candidates := ActiveSessions(rows, account, now), Candidates(rows, account, newSession, now);
    var evicted := Claimed(rows, account, limit, newSession, now);
    SurplusLeavesNewest(rows, candidates, Keep(limit, newSession));
    if newSession.Some? {
      OneSlot(prior, newSession.value, evicted);
    } else {
      assert prior == candidates;
    }
  }

  /** The new session takes one slot. */
  lemma {:induction false} OneSlot(prior: set<Id>, newest: Id, evicted: set<Id>)
    requires newest in prior && evicted <= prior - {newest}
    ensures |prior| == |prior - {newest}| + 1 && |prior - evicted| == |prior - {newest} - evicted| + 1
  {
    assert prior == (prior - {newest}) + {newest};
    assert prior - evicted == (prior - {newest} - evicted) + {newest};
  }

  lemma {:induction false} EnforcedSessions(rows: Table, account: Id, limit: nat, newSession: Option<Id>, now: Time)
    requires limit > 0
    ensures var end, prior := Enforced(rows, account, limit, newSession, now), ActiveSessions(rows, account, now);
            var claimed, left := Claimed(rows, account, limit, newSession, now), ActiveSessions(end, account, now);
            && RemovesExactly(rows, end, claimed)
            && (left == prior - claimed <==> ClearOf(rows, prior - claimed, claimed))
  {
    var end, prior := Enforced(rows, account, limit, newSession, now), ActiveSessions(rows, account, now);
    var claimed, left := Claimed(rows, account, limit, newSession, now), ActiveSessions(end, account, now);
    forall g ensures g in GrantsOf(rows, claimed) <==> NamedBy(rows, claimed, g) { GrantsAreNamed(rows, claimed, g); }
    assert RemovesExactly(rows, end, claimed);
    forall i ensures i in left <==> i in prior - claimed && ClearOf(rows, {i}, claimed) {
      SessionLeft(rows, end, account, now, claimed, i);
    }
    if ClearOf(rows, prior - claimed, claimed) {
      forall i | i in prior - claimed ensures i in left { assert ClearOf(rows, {i}, claimed); }
      assert left == prior - claimed;
    } else {
      var i :| i in prior - claimed && !ClearOf(rows, {i}, claimed);
      assert i !in left;
    }
  }

  lemma {:induction false} SessionLeft(rows: Table, end: Table, account: Id, now: Time, evicted: set<Id>, i: Id)
    requires RemovesExactly(rows, end, evicted)
    ensures i in ActiveSessions(end, account, now)
            <==> i in ActiveSessions(rows, account, now) - evicted && ClearOf(rows, {i}, evicted)
  {
    if i in ActiveSessions(rows, account, now) { assert Key(Session, i) in rows; }
    if i in ActiveSessions(end, account, now) { assert Key(Session, i) in end; }
  }

  // ----- switching tenant ---------------------------------------------------------------

  /** The records a switch issues for the target membership. */
  datatype Issue = Issue(account: Id, grantId: Id, accessId: Id, refreshId: Id, expiresAt: Option<Time>, now: Time)

  function IssuedRow(issue: Issue, grant: Option<Id>): Row {
    Row(Some(issue.account), grant, issue.expiresAt, issue.now, None)
  }

  function Issued(rows: Table, issue: Issue): Table {
    rows[Key(Grant, issue.grantId) := IssuedRow(issue, None)]
        [Key(AccessToken, issue.accessId) := IssuedRow(issue, Some(issue.grantId))]
        [Key(RefreshToken, issue.refreshId) := IssuedRow(issue, Some(issue.grantId))]
  }

  /** The new ids are unused, and no stored row names the new grant. */
  predicate Fresh(rows: Table, issue: Issue) {
    && Key(Grant, issue.grantId) !in rows
    && Key(AccessToken, issue.accessId) !in rows && Key(RefreshToken, issue.refreshId) !in rows
    && forall k :: k in rows ==> rows[k].grant != Some(issue.grantId)
  }

  /** The grant of the access token the caller presented, if that token is still stored and live. */
  function PreviousGrant(rows: Table, jti: Option<Id>, now: Time): Option<Id> {
    if jti.Some? && Key(AccessToken, jti.value) in rows && Live(rows[Key(AccessToken, jti.value)], now)
    then rows[Key(AccessToken, jti.value)].grant
    else None
  }

  /** `revokeGrant`: destroys the grant if it is found live, then the access and refresh tokens
      under it, found or not. */
  function WithoutGrant(rows: Table, grantId: Id, now: Time): Table {
    map k | k in rows
      && !(k == Key(Grant, grantId) && Live(rows[k], now))
      && !(k.model in {AccessToken, RefreshToken} && rows[k].grant == Some(grantId))
      :: rows[k]
  }

  function ReboundRow(row: Row, to: Id, clientId: Id, grantId: Id): Row {
    var authorizations :=
      if row.authorizations.Some? && clientId in row.authorizations.value && row.authorizations.value[clientId].Entry?
      then Some(row.authorizations.value[clientId := Entry(Some(grantId))])
      else row.authorizations;
    row.(account := Some(to), authorizations := authorizations)
  }

  predicate SessionOf(k: Key, row: Row, account: Id) { k.model == Session && row.account == Some(account) }

  function Rebound(rows: Table, from: Id, to: Id, clientId: Id, grantId: Id): Table {
    map k | k in rows :: if SessionOf(k, rows[k], from) then ReboundRow(rows[k], to, clientId, grantId) else rows[k]
  }

  function Switched(rows: Table, from: Id, clientId: Id, jti: Option<Id>, issue: Issue): Table {
    var previous := PreviousGrant(rows, jti, issue.now);
    var issued := Issued(rows, issue);
    var revoked := if previous.Some? && previous.value != issue.grantId
                   then WithoutGrant(issued, previous.value, issue.now) else issued;
    var rebound := Rebound(revoked, from, issue.account, clientId, issue.grantId);
    if from != issue.account then WithoutAccounts(rebound, {from}) else rebound
  }

  /** The grant a row belongs to; a grant row belongs to itself. */
  function GrantNamed(k: Key, row: Row): Option<Id> { if k.model == Grant then Some(k.id) else row.grant }

  /** Grants and the account-bound rows under them share one account. */
  ghost predicate SharesAccount(rows: Table) {
    forall k, l :: k in rows && l in rows && AccountBound(k.model) && AccountBound(l.model)
      && GrantNamed(k, rows[k]).Some? && GrantNamed(k, rows[k]) == GrantNamed(l, rows[l])
      ==> rows[k].account == rows[l].account
  }

  /** A grant row is linked to its tokens by its own id and has no grant id beside it. */
  predicate GrantsCarryNoGrant(rows: Table) {
    forall k :: k in rows && k.model == Grant ==> rows[k].grant.None?
  }

  /** What `switchTenant` relies on: the caller's own token, unused new ids, and the provider's
      conventions on grants. */
  ghost predicate SwitchPre(rows: Table, from: Id, jti: Option<Id>, issue: Issue) {
    && from != issue.account && Fresh(rows, issue)
    && SharesAccount(rows) && SessionsCarryNoGrant(rows) && GrantsCarryNoGrant(rows)
    && (jti.Some? && Key(AccessToken, jti.value) in rows ==> rows[Key(AccessToken, jti.value)].account == Some(from))
  }

  /** The state just before the final delete, row by row. */
  ghost predicate BeforeDelete(rows: Table, from: Id, clientId: Id, jti: Option<Id>, issue: Issue, r: Table) {
    var previous := PreviousGrant(rows, jti, issue.now);
    && Key(Grant, issue.grantId) in r && r[Key(Grant, issue.grantId)] == IssuedRow(issue, None)
    && Key(AccessToken, issue.accessId) in r
    && r[Key(AccessToken, issue.accessId)] == IssuedRow(issue, Some(issue.grantId))
    && Key(RefreshToken, issue.refreshId) in r
    && r[Key(RefreshToken, issue.refreshId)] == IssuedRow(issue, Some(issue.grantId))
    && (forall k :: k in r ==> k in rows || k in IssuedKeys(issue))
    && (forall k :: k in rows ==>
          && (k in r <==> !(previous.Some? && RevokedWith(k, rows[k], previous.value, issue.now)))
          && (k in r ==> r[k] == if SessionOf(k, rows[k], from)
                                 then ReboundRow(rows[k], issue.account, clientId, issue.grantId) else rows[k]))
  }

  function IssuedKeys(issue: Issue): set<Key> {
    {Key(Grant, issue.grantId), Key(AccessToken, issue.accessId), Key(RefreshToken, issue.refreshId)}
  }

  predicate RevokedWith(k: Key, row: Row, grantId: Id, now: Time) {
    || (k == Key(Grant, grantId) && Live(row, now))
    || (k.model in {AccessToken, RefreshToken} && row.grant == Some(grantId))
  }

  lemma {:induction false} SwitchSteps(rows: Table, from: Id, clientId: Id, jti: Option<Id>, issue: Issue)
    returns (r: Table)
    requires SwitchPre(rows, from, jti, issue)
    ensures BeforeDelete(rows, from, clientId, jti, issue, r)
    ensures Switched(rows, from, clientId, jti, issue) == WithoutAccounts(r, {from})
  {
    var previous := PreviousGrant(rows, jti, issue.now);
    var issued := Issued(rows, issue);
    assert previous.Some? ==> previous.value != issue.grantId;
    var revoked := if previous.Some? then WithoutGrant(issued, previous.value, issue.now) else issued;
    r := Rebound(revoked, from, issue.account, clientId, issue.grantId);
  }

  /** The session belongs to the target account, an entry it has for the client names the new
      grant, and nothing else about it differs. */
  ghost predicate MovedSession(before: Row, after: Row, to: Id, clientId: Id, grantId: Id) {
    && after.account == Some(to)
    && after.grant == before.grant && after.expiresAt == before.expiresAt && after.createdAt == before.createdAt
    && (before.authorizations.None? <==> after.authorizations.None?)
    && (before.authorizations.Some? ==>
          var was, now := before.authorizations.value, after.authorizations.value;
          && was.Keys == now.Keys
          && (forall c :: c in was && c != clientId ==> now[c] == was[c])
          && (clientId in was ==>
                now[clientId] == if was[clientId].Entry? then Entry(Some(grantId)) else was[clientId]))
  }

  /** The row is stored for the target account, under the grant, with the issued expiry. */
  predicate IssuedTo(rows: Table, k: Key, issue: Issue, grant: Option<Id>) {
    && k in rows && rows[k].account == Some(issue.account) && rows[k].grant == grant
    && rows[k].expiresAt == issue.expiresAt && rows[k].createdAt == issue.now && rows[k].authorizations == None
  }

  lemma {:induction false} RebindMoves(row: Row, to: Id, clientId: Id, grantId: Id)
    ensures MovedSession(row, ReboundRow(row, to, clientId, grantId), to, clientId, grantId)
  {}

  /** After a completed switch no account-bound row of the old account is left, each of its
      sessions is stored under the target account with its entry for the client naming the new
      grant, the new grant and tokens are stored, and every row of any other account is as it
      was. */
  lemma {:induction false} SwitchMovesEverything(rows: Table, from: Id, clientId: Id, jti: Option<Id>, issue: Issue)
    requires SwitchPre(rows, from, jti, issue)
    ensures var end := Switched(rows, from, clientId, jti, issue);
            && (forall k :: k in end ==> !BoundTo(k, end[k], {from}))
            && (forall k :: k in rows && SessionOf(k, rows[k], from) ==>
                  k in end && MovedSession(rows[k], end[k], issue.account, clientId, issue.grantId))
            && IssuedTo(end, Key(Grant, issue.grantId), issue, None)
            && IssuedTo(end, Key(AccessToken, issue.accessId), issue, Some(issue.grantId))
            && IssuedTo(end, Key(RefreshToken, issue.refreshId), issue, Some(issue.grantId))
            && (forall k :: k in rows && AccountBound(k.model) && rows[k].account != Some(from) ==>
                  k in end && end[k] == rows[k])
            && (forall k :: k in rows && !AccountBound(k.model) && !UnderGrantsOf(rows, rows[k], from) ==>
                  k in end && end[k] == rows[k])
  {
    var r := SwitchSteps(rows, from, clientId, jti, issue);
    var end := Switched(rows, from, clientId, jti, issue);
    HeldAfter(rows, from, clientId, jti, issue, r);
    IssuedKept(rows, from, clientId, jti, issue, r);
    forall k | k in rows && SessionOf(k, rows[k], from)
      ensures k in end && MovedSession(rows[k], end[k], issue.account, clientId, issue.grantId)
    {
      SessionMoved(rows, from, clientId, jti, issue, r, k);
    }
    forall k | k in rows && AccountBound(k.model) && rows[k].account != Some(from)
      ensures k in end && end[k] == rows[k]
    {
      OthersUntouched(rows, from, clientId, jti, issue, r, k);
    }
    forall k | k in rows && !AccountBound(k.model) && !UnderGrantsOf(rows, rows[k], from)
      ensures k in end && end[k] == rows[k]
    {
      OtherModelsUntouched(rows, from, clientId, jti, issue, r, k);
    }
  }

  lemma {:induction false} IssuedKept(rows: Table, from: Id, clientId: Id, jti: Option<Id>, issue: Issue, r: Table)
    requires SwitchPre(rows, from, jti, issue) && BeforeDelete(rows, from, clientId, jti, issue, r)
    requires issue.grantId !in GrantsHeldBy(r, {from})
    ensures var end := WithoutAccounts(r, {from});
            forall k :: k in IssuedKeys(issue) ==> k in end && end[k] == r[k]
  {}

  lemma {:induction false} SessionMoved(
      rows: Table, from: Id, clientId: Id, jti: Option<Id>, issue: Issue, r: Table, k: Key)
    requires SwitchPre(rows, from, jti, issue) && BeforeDelete(rows, from, clientId, jti, issue, r)
    requires k in rows && SessionOf(k, rows[k], from)
    ensures var end := WithoutAccounts(r, {from});
            k in end && MovedSession(rows[k], end[k], issue.account, clientId, issue.grantId)
  {
    assert WithoutAccounts(r, {from})[k] == ReboundRow(rows[k], issue.account, clientId, issue.grantId);
    RebindMoves(rows[k], issue.account, clientId, issue.grantId);
  }

  lemma {:induction false} OtherModelsUntouched(
      rows: Table, from: Id, clientId: Id, jti: Option<Id>, issue: Issue, r: Table, k: Key)
    requires SwitchPre(rows, from, jti, issue) && BeforeDelete(rows, from, clientId, jti, issue, r)
    requires GrantsHeldBy(r, {from}) <= GrantsHeldBy(rows, {from})
    requires k in rows && !AccountBound(k.model) && !UnderGrantsOf(rows, rows[k], from)
    ensures k in WithoutAccounts(r, {from}) && WithoutAccounts(r, {from})[k] == rows[k]
  {
    assert k in r && r[k] == rows[k];
  }

  lemma {:induction false} HeldAfter(rows: Table, from: Id, clientId: Id, jti: Option<Id>, issue: Issue, r: Table)
    requires SwitchPre(rows, from, jti, issue) && BeforeDelete(rows, from, clientId, jti, issue, r)
    ensures GrantsHeldBy(r, {from}) <= GrantsHeldBy(rows, {from}) && issue.grantId !in GrantsHeldBy(r, {from})
    ensures forall h :: h in GrantsHeldBy(rows, {from}) && h !in GrantsHeldBy(r, {from}) ==>
              PreviousGrant(rows, jti, issue.now) == Some(h) && Live(rows[Key(Grant, h)], issue.now)
  {
    forall h | h in GrantsHeldBy(r, {from}) ensures h in GrantsHeldBy(rows, {from}) && h != issue.grantId {
      assert Key(Grant, h) in r;
      assert Key(Grant, h) in rows;
    }
    forall h | h in GrantsHeldBy(rows, {from}) && h !in GrantsHeldBy(r, {from})
      ensures PreviousGrant(rows, jti, issue.now) == Some(h) && Live(rows[Key(Grant, h)], issue.now)
    {
      assert Key(Grant, h) in rows && Key(Grant, h) !in r;
    }
  }

  predicate TokenOfStoredGrant(rows: Table, k: Key) {
    k in rows && AccountBound(k.model) && rows[k].grant.Some? && Key(Grant, rows[k].grant.value) in rows
  }

  lemma {:induction false} TokensShareAccount(rows: Table)
    requires SharesAccount(rows) && GrantsCarryNoGrant(rows)
    ensures forall k :: TokenOfStoredGrant(rows, k) ==>
              rows[k].account == rows[Key(Grant, rows[k].grant.value)].account
  {
    forall k | TokenOfStoredGrant(rows, k)
      ensures rows[k].account == rows[Key(Grant, rows[k].grant.value)].account
    {
      var g := Key(Grant, rows[k].grant.value);
      assert GrantNamed(k, rows[k]) == GrantNamed(g, rows[g]);
    }
  }

  lemma {:induction false} OthersUntouched(
      rows: Table, from: Id, clientId: Id, jti: Option<Id>, issue: Issue, r: Table, k: Key)
    requires SwitchPre(rows, from, jti, issue) && BeforeDelete(rows, from, clientId, jti, issue, r)
    requires GrantsHeldBy(r, {from}) <= GrantsHeldBy(rows, {from})
    requires k in rows && AccountBound(k.model) && rows[k].account != Some(from)
    ensures k in WithoutAccounts(r, {from}) && WithoutAccounts(r, {from})[k] == rows[k]
  {
    var previous := PreviousGrant(rows, jti, issue.now);
    if previous.Some? {
      var token := Key(AccessToken, jti.value);
      assert GrantNamed(token, rows[token]) == previous && rows[token].account == Some(from);
      assert GrantNamed(k, rows[k]) != previous;
    }
    assert k in r && r[k] == rows[k];
    TokensShareAccount(rows);
    assert rows[k].grant.Some? && Key(Grant, rows[k].grant.value) in rows ==> TokenOfStoredGrant(rows, k);
  }

  predicate UnderGrantsOf(rows: Table, row: Row, account: Id) {
    row.grant.Some? && row.grant.value in GrantsHeldBy(rows, {account})
  }

  /** A row outside the account-bound models under the caller's previous grant, which the switch
      destroys before it looks for rows hanging off the old account's grants. */
  predicate Stray(rows: Table, k: Key, previous: Option<Id>, now: Time)
    requires k in rows
  {
    && k.model.Other? && previous.Some? && rows[k].grant == previous
    && Key(Grant, previous.value) in rows && Live(rows[Key(Grant, previous.value)], now)
  }

  /** The same, written out: the row hangs off the grant of the presented access token, and
      neither that token nor that grant has reached its expiry. */
  predicate HangsOffPrevious(rows: Table, k: Key, jti: Option<Id>, now: Time)
    requires k in rows
  {
    && k.model.Other? && jti.Some? && Key(AccessToken, jti.value) in rows
    && var token := rows[Key(AccessToken, jti.value)];
       && (token.expiresAt == None || now < token.expiresAt.value)
       && token.grant.Some? && rows[k].grant == token.grant && Key(Grant, token.grant.value) in rows
       && var grant := rows[Key(Grant, token.grant.value)];
          grant.expiresAt == None || now < grant.expiresAt.value
  }

  lemma {:induction false} StrayWrittenOut(rows: Table, k: Key, jti: Option<Id>, now: Time)
    requires k in rows
    ensures Stray(rows, k, PreviousGrant(rows, jti, now), now) <==> HangsOffPrevious(rows, k, jti, now)
  {}

  /** Nothing is left under the old account's grants if and only if no stray row existed. */
  lemma {:induction false} SwitchClearsGrantsExactly(rows: Table, from: Id, clientId: Id, jti: Option<Id>, issue: Issue)
    requires SwitchPre(rows, from, jti, issue)
    ensures var end := Switched(rows, from, clientId, jti, issue);
            (forall k :: k in end ==> !UnderGrantsOf(rows, end[k], from))
            <==> (forall k :: k in rows ==> !HangsOffPrevious(rows, k, jti, issue.now))
  {
    var r := SwitchSteps(rows, from, clientId, jti, issue);
    var end := Switched(rows, from, clientId, jti, issue);
    var previous := PreviousGrant(rows, jti, issue.now);
    HeldAfter(rows, from, clientId, jti, issue, r);
    forall k | k in rows
      ensures Stray(rows, k, previous, issue.now) <==> HangsOffPrevious(rows, k, jti, issue.now)
    {
      StrayWrittenOut(rows, k, jti, issue.now);
    }
    forall k | k in end && UnderGrantsOf(rows, end[k], from) ensures k in rows && Stray(rows, k, previous, issue.now) {
      LeftUnder(rows, from, clientId, jti, issue, r, k);
    }
    forall k | k in rows && Stray(rows, k, previous, issue.now) ensures k in end && UnderGrantsOf(rows, end[k], from) {
      StrayStays(rows, from, clientId, jti, issue, r, k);
    }
  }

  /** A switch that leaves a row under a grant of the old account: the caller's access token and
      a row of another model hang off grant 1. */
  lemma {:induction false} StrayMayStay() returns (rows: Table, issue: Issue, k: Key)
    ensures SwitchPre(rows, 0, Some(1), issue)
    ensures var end := Switched(rows, 0, 0, Some(1), issue); k in end && UnderGrantsOf(rows, end[k], 0)
  {
    k, issue := Key(Other(0), 1), Issue(1, 2, 2, 2, None, 0);
    rows := map[Key(Grant, 1) := Row(Some(0), None, None, 0, None),
                Key(AccessToken, 1) := Row(Some(0), Some(1), None, 0, None),
                k := Row(None, Some(1), None, 0, None)];
    assert Stray(rows, k, PreviousGrant(rows, Some(1), 0), 0);
    var r := SwitchSteps(rows, 0, 0, Some(1), issue);
    StrayStays(rows, 0, 0, Some(1), issue, r, k);
  }

  lemma {:induction false} LeftUnder(
      rows: Table, from: Id, clientId: Id, jti: Option<Id>, issue: Issue, r: Table, k: Key)
    requires SwitchPre(rows, from, jti, issue) && BeforeDelete(rows, from, clientId, jti, issue, r)
    requires forall h :: h in GrantsHeldBy(rows, {from}) && h !in GrantsHeldBy(r, {from}) ==>
               PreviousGrant(rows, jti, issue.now) == Some(h) && Live(rows[Key(Grant, h)], issue.now)
    requires k in WithoutAccounts(r, {from}) && UnderGrantsOf(rows, r[k], from)
    ensures k in rows && Stray(rows, k, PreviousGrant(rows, jti, issue.now), issue.now)
  {
    var h := r[k].grant.value;
    assert Key(Grant, h) in rows && rows[Key(Grant, h)].account == Some(from);
    assert k in rows && rows[k].grant == Some(h);
    TokensShareAccount(rows);
    assert AccountBound(k.model) ==> TokenOfStoredGrant(rows, k);
  }

  lemma {:induction false} StrayStays(
      rows: Table, from: Id, clientId: Id, jti: Option<Id>, issue: Issue, r: Table, k: Key)
    requires SwitchPre(rows, from, jti, issue) && BeforeDelete(rows, from, clientId, jti, issue, r)
    requires k in rows && Stray(rows, k, PreviousGrant(rows, jti, issue.now), issue.now)
    ensures k in WithoutAccounts(r, {from}) && UnderGrantsOf(rows, WithoutAccounts(r, {from})[k], from)
  {
    var previous := PreviousGrant(rows, jti, issue.now);
    var token, g := Key(AccessToken, jti.value), Key(Grant, previous.value);
    assert GrantNamed(token, rows[token]) == GrantNamed(g, rows[g]);
    assert previous.value in GrantsHeldBy(rows, {from});
    assert g !in r;
  }

  // ----- the repository and its callers -------------------------------------------------

  datatype SessionLimitResult = SessionLimitResult(prior: nat, evicted: nat, limit: nat)

  class AccountSessions {
    var rows: Table

    method ClaimSurplusSessions(account: Id, limit: int, newSession: Option<Id>, now: Time)
      returns (evicted: set<Id>, grants: set<Id>)
      modifies this
      ensures evicted == Claimed(old(rows), account, limit, newSession, now)
      ensures evicted <= ActiveSessions(old(rows), account, now) && (newSession.Some? ==> newSession.value !in evicted)
      ensures var candidates := Candidates(old(rows), account, newSession, now);
              JustTheOldest(old(rows), candidates, Keep(limit, newSession), evicted)
      ensures rows == WithoutSessions(old(rows), evicted)
      ensures grants == GrantsOf(old(rows), evicted)
    {
      evicted := SelectSurplus(rows, Candidates(rows, account, newSession, now), Keep(limit, newSession));
      grants := CollectGrants(rows, evicted);
      rows := WithoutSessions(rows, evicted);
    }

    /** `SessionLimitService.enforce` */
    method Enforce(account: Id, limit: nat, newSession: Option<Id>, now: Time) returns (result: SessionLimitResult)
      modifies this
      ensures rows == Enforced(old(rows), account, limit, newSession, now)
      ensures limit == 0 ==> result == SessionLimitResult(0, 0, 0)
      ensures limit > 0 ==>
        result == SessionLimitResult(|ActiveSessions(old(rows), account, now)|,
                                     |Claimed(old(rows), account, limit, newSession, now)|, limit)
    {
      if limit == 0 {
        return SessionLimitResult(0, 0, limit);
      }
      var prior := |ActiveSessions(rows, account, now)|;
      var evicted, grants := ClaimSurplusSessions(account, limit, newSession, now);
      if evicted != {} {
        rows := WithoutSessionsAndGrants(rows, evicted, grants);
      }
      EnforcedBy(old(rows), account, limit, newSession, now, evicted);
      result := SessionLimitResult(prior, |evicted|, limit);
    }

    method RebindSessionsToAccount(from: Id, to: Id, clientId: Id, grantId: Id)
      modifies this
      ensures rows == Rebound(old(rows), from, to, clientId, grantId)
    {
      var sessions := set k | k in rows && SessionOf(k, rows[k], from);
      var todo := sessions;
      while todo != {}
        invariant todo <= sessions && rows.Keys == old(rows).Keys
        invariant forall k :: k in rows ==>
                    rows[k] == if k in sessions - todo then ReboundRow(old(rows)[k], to, clientId, grantId)
                               else old(rows)[k]
        decreases |todo|
      {
        var k :| k in todo;
        rows := rows[k := ReboundRow(rows[k], to, clientId, grantId)];
        todo := todo - {k};
      }
      ghost var spec := Rebound(old(rows), from, to, clientId, grantId);
      assert rows.Keys == spec.Keys;
      forall k | k in rows ensures rows[k] == spec[k] {
        assert k in sessions - todo <==> SessionOf(k, old(rows)[k], from);
      }
    }

    method RevokeGrant(grantId: Id, now: Time)
      modifies this
      ensures rows == WithoutGrant(old(rows), grantId, now)
    {
      var grant := Key(Grant, grantId);
      if grant in rows && Live(rows[grant], now) {
        rows := rows - {grant};
      }
      rows := map k | k in rows && !(k.model == AccessToken && rows[k].grant == Some(grantId)) :: rows[k];
      rows := map k | k in rows && !(k.model == RefreshToken && rows[k].grant == Some(grantId)) :: rows[k];
    }

    method SwitchTenant(from: Id, clientId: Id, jti: Option<Id>, issue: Issue)
      modifies this
      ensures rows == Switched(old(rows), from, clientId, jti, issue)
    {
      var previous := PreviousGrant(rows, jti, issue.now);
      rows := Issued(rows, issue);
      if previous.Some? && previous.value != issue.grantId {
        RevokeGrant(previous.value, issue.now);
      }
      RebindSessionsToAccount(from, issue.account, clientId, issue.grantId);
      if from != issue.account {
        rows := WithoutAccounts(rows, {from});
      }
    }
  }
}
