/** Role-scope writers and logins running side by side. A writer takes its tenant's advisory
    lock, reads, writes, reads again, validates, deletes the role's grants if it narrows it,
    and commits or rolls back; a narrowing writer sweeps once more afterwards. A login reads its
    role's scopes in one step and saves its grant in a later one. */
module RoleScopeProtocol {
  import opened Options
  import opened RoleScopes

  type Pid = nat
  type Time = nat

  /** The seeded defaults, and the key under which a tenant's writes are locked: `hashtext` may
      give two tenants the same key. */
  datatype Config = Config(defaults: RoleMap, lockKey: Id -> nat)

  datatype Phase =
    | Locked
    | ReadBefore(before: RoleMap)
    | Written(before: RoleMap)
    | Validated(before: RoleMap, outcome: Outcome)
    | Revoked(before: RoleMap, outcome: Outcome, doomed: set<Id>, revokedAt: Time)

  datatype Writer =
    | Waiting(request: Request)
    | Working(request: Request, ticket: nat, phase: Phase)
    | Sweeping(narrowing: nat)
    | Finished

  /** How a transaction ended; one cut off for outside reasons has no outcome. */
  datatype LogEntry = LogEntry(ticket: nat, request: Request, outcome: Option<Outcome>)

  /** A committed write that took scopes away from a role. */
  datatype Narrowing = Narrowing(tenant: Id, role: Role, revokedAt: Time, committedAt: Time, sweptAt: Option<Time>)

  datatype Login = Pending(tenant: Id, role: Role, scopes: Scopes, readAt: Time) | Over

  datatype Grant = Grant(tenant: Id, role: Role, scopes: Scopes, readAt: Time, savedAt: Time)

  /** `tables`, `locks`, `writers`, `logins`, `grants` and `audit` are the system's. The clock
      counts events, `tickets` counts locks taken, and `log` and `narrowings` record what has
      happened. */
  datatype State = State(
    clock: Time, tickets: nat, tables: map<Id, RoleMap>, locks: map<nat, Pid>, writers: map<Pid, Writer>,
    log: seq<LogEntry>, audit: seq<Entry>, logins: map<Id, Login>, grants: map<Id, Grant>,
    narrowings: seq<Narrowing>)

  datatype Event =
    | Submit(pid: Pid, request: Request)
    | Lock(pid: Pid)
    | Read(pid: Pid)
    | Write(pid: Pid)
    | Validate(pid: Pid)
    | RevokeGrants(pid: Pid)
    | Commit(pid: Pid)
    | Abort(pid: Pid)
    | Sweep(pid: Pid)
    | LoginRead(lid: Id, tenant: Id, role: Role, requested: Scopes)
    | LoginSave(lid: Id)

  function TableOf(s: State, t: Id): RoleMap { if t in s.tables then s.tables[t] else map[] }

  function GrantsOfRole(s: State, t: Id, role: Role): set<Id> {
    set g | g in s.grants && s.grants[g].tenant == t && s.grants[g].role == role
  }

  predicate AtWork(s: State, pid: Pid) { pid in s.writers && s.writers[pid].Working? }

  /** Ends a transaction: records how, and gives the lock back. */
  function Released(cfg: Config, s: State, pid: Pid, outcome: Option<Outcome>): State
    requires AtWork(s, pid)
  {
    var w := s.writers[pid];
    s.(writers := s.writers[pid := Finished],
       locks := s.locks - {cfg.lockKey(w.request.tenant)},
       log := s.log + [LogEntry(w.ticket, w.request, outcome)])
  }

  predicate ReadyToCommit(phase: Phase) {
    (phase.Validated? && phase.outcome.Accepted? && !phase.outcome.narrowed)
    || (phase.Revoked? && phase.outcome.Accepted?)
  }

  /** The database applies the pending upsert or delete to the tenant's committed rows, deletes
      the grants the transaction matched, and makes its audit entry visible, all at once. */
  function Committed(cfg: Config, s: State, pid: Pid): State
    requires AtWork(s, pid) && ReadyToCommit(s.writers[pid].phase)
  {
    var w := s.writers[pid];
    var out, t := w.phase.outcome, w.request.tenant;
    var narrows := w.phase.Revoked?;
    s.(tables := s.tables[t := Apply(TableOf(s, t), w.request)],
       locks := s.locks - {cfg.lockKey(t)},
       writers := s.writers[pid := if narrows then Sweeping(|s.narrowings|) else Finished],
       log := s.log + [LogEntry(w.ticket, w.request, Some(out))],
       audit := s.audit + (if out.audit.Some? then [out.audit.value] else []),
       grants := if narrows then s.grants - w.phase.doomed else s.grants,
       narrowings := if narrows
                     then s.narrowings + [Narrowing(t, w.request.role, w.phase.revokedAt, s.clock, None)]
                     else s.narrowings)
  }

  function SubmitStep(s: State, pid: Pid, request: Request): State {
    if pid in s.writers then s
    else s.(writers := s.writers[pid := if Precheck(request).Some? then Finished else Waiting(request)])
  }

  function LockStep(cfg: Config, s: State, pid: Pid): State {
    if pid !in s.writers || !s.writers[pid].Waiting? || cfg.lockKey(s.writers[pid].request.tenant) in s.locks then s
    else s.(writers := s.writers[pid := Working(s.writers[pid].request, s.tickets, Locked)],
            locks := s.locks[cfg.lockKey(s.writers[pid].request.tenant) := pid],
            tickets := s.tickets + 1)
  }

  function InPhase(s: State, pid: Pid, phase: Phase): State
    requires AtWork(s, pid)
  {
    s.(writers := s.writers[pid := s.writers[pid].(phase := phase)])
  }

  function ReadStep(s: State, pid: Pid): State {
    if !AtWork(s, pid) || !s.writers[pid].phase.Locked? then s
    else InPhase(s, pid, ReadBefore(TableOf(s, s.writers[pid].request.tenant)))
  }

  function WriteStep(s: State, pid: Pid): State {
    if !AtWork(s, pid) || !s.writers[pid].phase.ReadBefore? then s
    else InPhase(s, pid, Written(s.writers[pid].phase.before))
  }

  /** The second read sees the pending write over the tenant's committed rows. */
  ghost function ValidateStep(cfg: Config, s: State, pid: Pid): State {
    if !AtWork(s, pid) || !s.writers[pid].phase.Written? then s
    else
      var w := s.writers[pid];
      var after := Apply(TableOf(s, w.request.tenant), w.request);
      Decided(cfg, s, pid, Judge(cfg.defaults, w.phase.before, after, w.request))
  }

  function Decided(cfg: Config, s: State, pid: Pid, outcome: Outcome): State
    requires AtWork(s, pid) && s.writers[pid].phase.Written?
  {
    if outcome.Rejected? then Released(cfg, s, pid, Some(outcome))
    else InPhase(s, pid, Validated(s.writers[pid].phase.before, outcome))
  }

  function RevokeStep(s: State, pid: Pid): State {
    if !AtWork(s, pid) || !s.writers[pid].phase.Validated? || !s.writers[pid].phase.outcome.Accepted?
       || !s.writers[pid].phase.outcome.narrowed then s
    else
      var w := s.writers[pid];
      InPhase(s, pid, Phase.Revoked(w.phase.before, w.phase.outcome,
                                    GrantsOfRole(s, w.request.tenant, w.request.role), s.clock))
  }

  function CommitStep(cfg: Config, s: State, pid: Pid): State {
    if !AtWork(s, pid) || !ReadyToCommit(s.writers[pid].phase) then s else Committed(cfg, s, pid)
  }

  function AbortStep(cfg: Config, s: State, pid: Pid): State {
    if !AtWork(s, pid) then s else Released(cfg, s, pid, None)
  }

  function SweepStep(s: State, pid: Pid): State {
    if pid !in s.writers || !s.writers[pid].Sweeping? || s.writers[pid].narrowing >= |s.narrowings| then s
    else
      var k := s.writers[pid].narrowing;
      var n := s.narrowings[k];
      var late := GrantsOfRole(s, n.tenant, n.role);
      s.(writers := s.writers[pid := Finished],
         grants := s.grants - late,
         narrowings := s.narrowings[k := n.(sweptAt := Some(s.clock))],
         audit := s.audit + (if late == {} then [] else [Entry(n.tenant, n.role, Action.Revoke, {}, {}, {})]))
  }

  /** Nothing requested is denied: it is a protocol scope or one the role has now. */
  predicate Allowed(cfg: Config, s: State, tenant: Id, role: Role, requested: Scopes) {
    requested <= STANDARD_OIDC_SCOPES + Effective(cfg.defaults, TableOf(s, tenant), role)
  }

  function LoginReadStep(cfg: Config, s: State, lid: Id, tenant: Id, role: Role, requested: Scopes): State {
    if lid in s.logins then s
    else if !Allowed(cfg, s, tenant, role, requested) then s.(logins := s.logins[lid := Over])
    else s.(logins := s.logins[lid := Pending(tenant, role, requested, s.clock)])
  }

  function LoginSaveStep(s: State, lid: Id): State {
    if lid !in s.logins || !s.logins[lid].Pending? then s
    else
      var l := s.logins[lid];
      s.(logins := s.logins[lid := Over],
         grants := s.grants[lid := Grant(l.tenant, l.role, l.scopes, l.readAt, s.clock)])
  }

  /** One event; one whose process is not at the right point changes nothing. */
  ghost function Act(cfg: Config, s: State, e: Event): State {
    match e
    case Submit(pid, request) => SubmitStep(s, pid, request)
    case Lock(pid) => LockStep(cfg, s, pid)
    case Read(pid) => ReadStep(s, pid)
    case Write(pid) => WriteStep(s, pid)
    case Validate(pid) => ValidateStep(cfg, s, pid)
    case RevokeGrants(pid) => RevokeStep(s, pid)
    case Commit(pid) => CommitStep(cfg, s, pid)
    case Abort(pid) => AbortStep(cfg, s, pid)
    case Sweep(pid) => SweepStep(s, pid)
    case LoginRead(lid, tenant, role, requested) => LoginReadStep(cfg, s, lid, tenant, role, requested)
    case LoginSave(lid) => LoginSaveStep(s, lid)
  }

  ghost function Step(cfg: Config, s: State, e: Event): State { Act(cfg, s, e).(clock := s.clock + 1) }

  const EMPTY := State(0, 0, map[], map[], map[], [], [], map[], map[], [])

  ghost function Run(cfg: Config, es: seq<Event>): State {
    if es == [] then EMPTY else Step(cfg, Run(cfg, es[..|es| - 1]), es[|es| - 1])
  }

  // ----- locks and reads ----------------------------------------------------------------

  /** A writer at work holds its tenant's lock; its first read still shows the tenant's table,
      and its verdict is the one it would reach on that table alone. */
  ghost predicate WriterInv(cfg: Config, s: State, pid: Pid, w: Writer) {
    && (w.Waiting? ==> Precheck(w.request).None?)
    && (w.Working? ==>
          && Precheck(w.request).None?
          && cfg.lockKey(w.request.tenant) in s.locks && s.locks[cfg.lockKey(w.request.tenant)] == pid
          && w.ticket < s.tickets
          && PhaseInv(cfg, TableOf(s, w.request.tenant), w.request, w.phase))
  }

  ghost predicate PhaseInv(cfg: Config, table: RoleMap, request: Request, phase: Phase) {
    && (!phase.Locked? ==> phase.before == table)
    && (phase.Validated? || phase.Revoked? ==>
          phase.outcome.Accepted? && phase.outcome == WriteMapping(cfg.defaults, table, request))
    && (phase.Revoked? ==> phase.outcome.narrowed)
  }

  ghost predicate LockInv(cfg: Config, s: State) {
    && (forall p :: p in s.writers ==> WriterInv(cfg, s, p, s.writers[p]))
    && (forall k :: k in s.locks ==> Holds(cfg, s, k))
  }

  predicate Holds(cfg: Config, s: State, k: nat)
    requires k in s.locks
  {
    AtWork(s, s.locks[k]) && cfg.lockKey(s.writers[s.locks[k]].request.tenant) == k
  }

  /** One writer moves on; tables, locks and tickets stay. */
  lemma {:induction false} LockInvMoves(cfg: Config, s: State, t: State, pid: Pid)
    requires LockInv(cfg, s)
    requires t.tables == s.tables && t.locks == s.locks && t.tickets == s.tickets
    requires pid in t.writers && t.writers == s.writers[pid := t.writers[pid]]
    requires WriterInv(cfg, t, pid, t.writers[pid])
    requires AtWork(s, pid) ==> t.writers[pid].Working? && t.writers[pid].request == s.writers[pid].request
    ensures LockInv(cfg, t)
  {
    forall p | p in t.writers ensures WriterInv(cfg, t, p, t.writers[p]) {
      if p != pid { assert WriterInv(cfg, s, p, s.writers[p]); }
    }
    forall k | k in t.locks ensures Holds(cfg, t, k) { assert Holds(cfg, s, k); }
  }

  /** Nothing the invariant speaks of changes. */
  lemma {:induction false} LockInvSame(cfg: Config, s: State, t: State)
    requires LockInv(cfg, s)
    requires t.tables == s.tables && t.locks == s.locks && t.tickets == s.tickets && t.writers == s.writers
    ensures LockInv(cfg, t)
  {
    forall p | p in t.writers ensures WriterInv(cfg, t, p, t.writers[p]) { assert WriterInv(cfg, s, p, s.writers[p]); }
    forall k | k in t.locks ensures Holds(cfg, t, k) { assert Holds(cfg, s, k); }
  }

  lemma {:induction false} LockInvLock(cfg: Config, s: State, pid: Pid)
    requires LockInv(cfg, s)
    ensures LockInv(cfg, LockStep(cfg, s, pid))
  {
    var t := LockStep(cfg, s, pid);
    forall p | p in t.writers ensures WriterInv(cfg, t, p, t.writers[p]) { assert WriterInv(cfg, s, p, s.writers[p]); }
    forall k | k in t.locks ensures Holds(cfg, t, k) { if k in s.locks { assert Holds(cfg, s, k); } }
  }

  /** A transaction ends: its lock goes, and at most its own tenant's table changes. */
  ghost predicate Ends(cfg: Config, s: State, pid: Pid, t: State) {
    && AtWork(s, pid) && pid in t.writers && !t.writers[pid].Working? && !t.writers[pid].Waiting?
    && t.writers == s.writers[pid := t.writers[pid]]
    && t.locks == s.locks - {cfg.lockKey(s.writers[pid].request.tenant)} && t.tickets == s.tickets
    && (forall u: Id :: u != s.writers[pid].request.tenant ==> TableOf(t, u) == TableOf(s, u))
  }

  lemma {:induction false} LockInvEnds(cfg: Config, s: State, pid: Pid, t: State)
    requires LockInv(cfg, s) && Ends(cfg, s, pid, t)
    ensures LockInv(cfg, t)
  {
    assert WriterInv(cfg, s, pid, s.writers[pid]);
    forall p | p in t.writers ensures WriterInv(cfg, t, p, t.writers[p]) {
      if p != pid { assert WriterInv(cfg, s, p, s.writers[p]); }
    }
    forall k | k in t.locks ensures Holds(cfg, t, k) { assert Holds(cfg, s, k) && s.locks[k] != pid; }
  }

  /** What a validation leads to: the verdict of the same write run alone. */
  lemma {:induction false} ValidateDecides(cfg: Config, s: State, pid: Pid) returns (outcome: Outcome)
    requires LockInv(cfg, s) && AtWork(s, pid) && s.writers[pid].phase.Written?
    ensures outcome == WriteMapping(cfg.defaults, TableOf(s, s.writers[pid].request.tenant), s.writers[pid].request)
    ensures ValidateStep(cfg, s, pid) == Decided(cfg, s, pid, outcome)
  {
    var w := s.writers[pid];
    assert WriterInv(cfg, s, pid, w);
    outcome := WriteMapping(cfg.defaults, TableOf(s, w.request.tenant), w.request);
  }

  lemma {:induction false} LockInvDecided(cfg: Config, s: State, pid: Pid, outcome: Outcome)
    requires LockInv(cfg, s) && AtWork(s, pid) && s.writers[pid].phase.Written?
    requires outcome == WriteMapping(cfg.defaults, TableOf(s, s.writers[pid].request.tenant), s.writers[pid].request)
    ensures LockInv(cfg, Decided(cfg, s, pid, outcome))
  {
    var t := Decided(cfg, s, pid, outcome);
    assert WriterInv(cfg, s, pid, s.writers[pid]);
    if outcome.Rejected? { LockInvEnds(cfg, s, pid, t); } else { LockInvMoves(cfg, s, t, pid); }
  }

  lemma {:induction false} LockInvValidate(cfg: Config, s: State, pid: Pid)
    requires LockInv(cfg, s)
    ensures LockInv(cfg, ValidateStep(cfg, s, pid))
  {
    if AtWork(s, pid) && s.writers[pid].phase.Written? {
      var outcome := ValidateDecides(cfg, s, pid);
      LockInvDecided(cfg, s, pid, outcome);
    }
  }

  lemma {:induction false} LockInvCommit(cfg: Config, s: State, pid: Pid)
    requires LockInv(cfg, s) && AtWork(s, pid) && ReadyToCommit(s.writers[pid].phase)
    ensures Ends(cfg, s, pid, Committed(cfg, s, pid)) && LockInv(cfg, Committed(cfg, s, pid))
  {
    LockInvEnds(cfg, s, pid, Committed(cfg, s, pid));
  }

  lemma {:induction false} LockInvAct(cfg: Config, s: State, e: Event)
    requires LockInv(cfg, s)
    ensures LockInv(cfg, Act(cfg, s, e))
  {
    if e.Validate? {
      LockInvValidate(cfg, s, e.pid);
    } else if e.Lock? {
      LockInvLock(cfg, s, e.pid);
    } else if e.Read? || e.Write? || e.RevokeGrants? {
      LockInvPhase(cfg, s, e.pid, Act(cfg, s, e));
    } else if e.Commit? || e.Abort? {
      LockInvEnding(cfg, s, e);
    } else {
      LockInvOther(cfg, s, e);
    }
  }

  lemma {:induction false} LockInvEnding(cfg: Config, s: State, e: Event)
    requires LockInv(cfg, s) && (e.Commit? || e.Abort?)
    ensures LockInv(cfg, Act(cfg, s, e))
  {
    match e
    case Commit(pid) => if AtWork(s, pid) && ReadyToCommit(s.writers[pid].phase) { LockInvCommit(cfg, s, pid); }
    case Abort(pid) => if AtWork(s, pid) { LockInvEnds(cfg, s, pid, Released(cfg, s, pid, None)); }
  }

  lemma {:induction false} LockInvSubmit(cfg: Config, s: State, pid: Pid, request: Request)
    requires LockInv(cfg, s)
    ensures LockInv(cfg, SubmitStep(s, pid, request))
  {
    if pid !in s.writers { LockInvMoves(cfg, s, SubmitStep(s, pid, request), pid); }
  }

  lemma {:induction false} LockInvSweep(cfg: Config, s: State, pid: Pid)
    requires LockInv(cfg, s)
    ensures LockInv(cfg, SweepStep(s, pid))
  {
    if SweepStep(s, pid) != s { LockInvMoves(cfg, s, SweepStep(s, pid), pid); }
  }

  lemma {:induction false} LockInvOther(cfg: Config, s: State, e: Event)
    requires LockInv(cfg, s) && (e.Submit? || e.Sweep? || e.LoginRead? || e.LoginSave?)
    ensures LockInv(cfg, Act(cfg, s, e))
  {
    match e
    case Submit(pid, request) => LockInvSubmit(cfg, s, pid, request);
    case Sweep(pid) => LockInvSweep(cfg, s, pid);
    case LoginRead(lid, tenant, role, requested) =>
      LockInvSame(cfg, s, LoginReadStep(cfg, s, lid, tenant, role, requested));
    case LoginSave(lid) => LockInvSame(cfg, s, LoginSaveStep(s, lid));
  }

  lemma {:induction false} LockInvPhase(cfg: Config, s: State, pid: Pid, t: State)
    requires LockInv(cfg, s) && t in {ReadStep(s, pid), WriteStep(s, pid), RevokeStep(s, pid)}
    ensures LockInv(cfg, t)
  {
    if AtWork(s, pid) {
      assert WriterInv(cfg, s, pid, s.writers[pid]);
      if t != s { LockInvMoves(cfg, s, t, pid); }
    }
  }

  // ----- history: serial order, containment, audit replay -------------------------------

  /** The sequential specification: the logged writes applied one by one, each to what the ones
      before it left; an aborted one does nothing. */
  ghost function Serial(cfg: Config, log: seq<LogEntry>, t: Id): RoleMap {
    if log == [] then map[]
    else
      var table, last := Serial(cfg, log[..|log| - 1], t), log[|log| - 1];
      if last.request.tenant != t || last.outcome.None? then table
      else
        var out := WriteMapping(cfg.defaults, table, last.request);
        if out.Accepted? then out.after else table
  }

  lemma {:induction false} SerialMore(cfg: Config, log: seq<LogEntry>, e: LogEntry, t: Id)
    ensures Serial(cfg, log + [e], t) ==
      var table := Serial(cfg, log, t);
      if e.request.tenant == t && e.outcome.Some? && WriteMapping(cfg.defaults, table, e.request).Accepted?
      then WriteMapping(cfg.defaults, table, e.request).after
      else table
  {
    assert (log + [e])[..|log|] == log;
  }

  /** Every transaction that was not cut off had the outcome the sequential specification gives
      it at its place in the log. */
  ghost predicate LogFaithful(cfg: Config, log: seq<LogEntry>) {
    forall i :: 0 <= i < |log| && log[i].outcome.Some? ==>
      log[i].outcome.value == WriteMapping(cfg.defaults, Serial(cfg, log[..i], log[i].request.tenant), log[i].request)
  }

  /** Transactions of one tenant stand in the log in the order in which they took the lock, and
      a writer at work took it after all of its tenant's logged ones. */
  ghost predicate TicketOrder(cfg: Config, s: State) {
    && (forall i, j :: 0 <= i < j < |s.log| && SameLock(cfg, s.log[i].request, s.log[j].request) ==>
          s.log[i].ticket < s.log[j].ticket)
    && (forall i :: 0 <= i < |s.log| ==> s.log[i].ticket < s.tickets)
    && (forall p, i :: AtWork(s, p) && 0 <= i < |s.log| && SameLock(cfg, s.log[i].request, s.writers[p].request) ==>
          s.log[i].ticket < s.writers[p].ticket)
  }

  predicate SameLock(cfg: Config, a: Request, b: Request) { cfg.lockKey(a.tenant) == cfg.lockKey(b.tenant) }

  ghost predicate HistoryInv(cfg: Config, s: State) {
    && LogFaithful(cfg, s.log)
    && PreviousMatches(cfg.defaults, s.audit)
    && (forall t: Id :: TableHistory(cfg, s, t))
  }

  ghost predicate TableHistory(cfg: Config, s: State, t: Id) {
    && TableOf(s, t) == Serial(cfg, s.log, t)
    && TableOf(s, t) == Replay(s.audit, t)
    && Contained(cfg.defaults, TableOf(s, t)) && Owner !in TableOf(s, t) && NoSuperuser(TableOf(s, t))
  }

  /** How a transaction's end shows: one log entry, and for a commit the written table and the
      audit entry. */
  ghost predicate EndsWith(cfg: Config, s: State, pid: Pid, outcome: Option<Outcome>, t: State) {
    && AtWork(s, pid)
    && var w := s.writers[pid];
       && t.log == s.log + [LogEntry(w.ticket, w.request, outcome)]
       && (outcome.Some? ==> outcome.value == WriteMapping(cfg.defaults, TableOf(s, w.request.tenant), w.request))
       && (forall u: Id :: TableOf(t, u) ==
             if u == w.request.tenant && outcome.Some? && outcome.value.Accepted? then outcome.value.after
             else TableOf(s, u))
       && t.audit == s.audit + (if outcome.Some? && outcome.value.Accepted? && outcome.value.audit.Some?
                                then [outcome.value.audit.value] else [])
  }

  lemma {:induction false} HistoryEnds(cfg: Config, s: State, pid: Pid, outcome: Option<Outcome>, t: State)
    requires HistoryInv(cfg, s) && EndsWith(cfg, s, pid, outcome, t)
    ensures HistoryInv(cfg, t)
  {
    var w := s.writers[pid];
    var entry, tenant := LogEntry(w.ticket, w.request, outcome), w.request.tenant;
    assert TableHistory(cfg, s, tenant);
    forall i | 0 <= i < |t.log| && t.log[i].outcome.Some?
      ensures t.log[i].outcome.value
           == WriteMapping(cfg.defaults, Serial(cfg, t.log[..i], t.log[i].request.tenant), t.log[i].request)
    {
      assert t.log[..i] == s.log[..i];
      if i == |s.log| { assert s.log[..i] == s.log; }
    }
    if outcome.Some? && outcome.value.Accepted? {
      AuditedWrite(cfg.defaults, s.audit, w.request);
      AcceptedWrite(cfg.defaults, TableOf(s, tenant), w.request);
    }
    assert s.audit + [] == s.audit;
    forall u: Id ensures TableHistory(cfg, t, u) {
      assert TableHistory(cfg, s, u);
      SerialMore(cfg, s.log, entry, u);
    }
  }

  lemma {:induction false} HistoryStays(cfg: Config, s: State, t: State)
    requires HistoryInv(cfg, s) && t.tables == s.tables && t.log == s.log
    requires t.audit == s.audit || (|t.audit| == |s.audit| + 1 && t.audit[..|s.audit|] == s.audit
                                    && t.audit[|s.audit|].action == Action.Revoke)
    ensures HistoryInv(cfg, t)
  {
    if t.audit != s.audit {
      var entry := t.audit[|s.audit|];
      assert t.audit == s.audit + [entry];
      forall i | 0 <= i < |t.audit| && t.audit[i].action != Action.Revoke
        ensures t.audit[i].previous == Effective(cfg.defaults, Replay(t.audit[..i], t.audit[i].tenant), t.audit[i].role)
      {
        assert t.audit[..i] == s.audit[..i];
      }
      forall u: Id ensures TableHistory(cfg, t, u) {
        assert TableHistory(cfg, s, u);
        ReplayMore(s.audit, entry, u);
      }
    } else {
      forall u: Id ensures TableHistory(cfg, t, u) { assert TableHistory(cfg, s, u); }
    }
  }

  lemma {:induction false} CommitEnds(cfg: Config, s: State, pid: Pid)
    requires LockInv(cfg, s) && AtWork(s, pid) && ReadyToCommit(s.writers[pid].phase)
    ensures EndsWith(cfg, s, pid, Some(s.writers[pid].phase.outcome), Committed(cfg, s, pid))
  {
    assert WriterInv(cfg, s, pid, s.writers[pid]);
  }

  /** The events that end no transaction and delete no grant. */
  predicate Quiet(e: Event) {
    e.Submit? || e.Lock? || e.Read? || e.Write? || e.RevokeGrants? || e.LoginRead? || e.LoginSave?
  }

  lemma {:induction false} QuietEffect(cfg: Config, s: State, e: Event)
    requires Quiet(e)
    ensures var t := Act(cfg, s, e);
            && t.tables == s.tables && t.log == s.log && t.audit == s.audit && t.narrowings == s.narrowings
            && s.tickets <= t.tickets && t.clock == s.clock
  {}

  lemma {:induction false} QuietKeepsWork(cfg: Config, s: State, e: Event)
    requires Quiet(e)
    ensures KeepsWork(s, Act(cfg, s, e))
  {
    match e
    case Submit(pid, request) => WorkMoves(s, SubmitStep(s, pid, request), pid);
    case Lock(pid) => WorkMoves(s, LockStep(cfg, s, pid), pid);
    case LoginRead(lid, tenant, role, requested) =>
    case LoginSave(lid) =>
    case _ => PhaseKeepsWork(cfg, s, e);
  }

  lemma {:induction false} PhaseKeepsWork(cfg: Config, s: State, e: Event)
    requires e.Read? || e.Write? || e.RevokeGrants?
    ensures KeepsWork(s, Act(cfg, s, e))
  {
    match e
    case Read(pid) => WorkMoves(s, ReadStep(s, pid), pid);
    case Write(pid) => WorkMoves(s, WriteStep(s, pid), pid);
    case RevokeGrants(pid) => WorkMoves(s, RevokeStep(s, pid), pid);
  }

  lemma {:induction false} WorkMoves(s: State, t: State, pid: Pid)
    requires t.writers == s.writers || (pid in t.writers && t.writers == s.writers[pid := t.writers[pid]])
    requires AtWork(t, pid) ==>
      || (AtWork(s, pid) && t.writers[pid].request == s.writers[pid].request
          && t.writers[pid].ticket == s.writers[pid].ticket)
      || t.writers[pid].ticket >= s.tickets
    ensures KeepsWork(s, t)
  {}

  /** Writers at work keep their request and ticket; a new one has a new ticket. */
  ghost predicate KeepsWork(s: State, t: State) {
    forall p :: AtWork(t, p) ==>
      || (AtWork(s, p) && t.writers[p].request == s.writers[p].request && t.writers[p].ticket == s.writers[p].ticket)
      || t.writers[p].ticket >= s.tickets
  }

  lemma {:induction false} HistoryAct(cfg: Config, s: State, e: Event)
    requires LockInv(cfg, s) && HistoryInv(cfg, s)
    ensures HistoryInv(cfg, Act(cfg, s, e))
  {
    if Quiet(e) {
      QuietEffect(cfg, s, e);
      HistoryStays(cfg, s, Act(cfg, s, e));
    } else {
      match e
      case Validate(pid) => HistoryValidate(cfg, s, pid);
      case Commit(pid) =>
        if AtWork(s, pid) && ReadyToCommit(s.writers[pid].phase) {
          CommitEnds(cfg, s, pid);
          HistoryEnds(cfg, s, pid, Some(s.writers[pid].phase.outcome), Committed(cfg, s, pid));
        }
      case Abort(pid) => if AtWork(s, pid) { HistoryAbort(cfg, s, pid); }
      case Sweep(pid) => HistoryStays(cfg, s, SweepStep(s, pid));
    }
  }

  lemma {:induction false} HistoryAbort(cfg: Config, s: State, pid: Pid)
    requires HistoryInv(cfg, s) && AtWork(s, pid)
    ensures HistoryInv(cfg, Released(cfg, s, pid, None))
  {
    HistoryEnds(cfg, s, pid, None, Released(cfg, s, pid, None));
  }

  lemma {:induction false} HistoryDecided(cfg: Config, s: State, pid: Pid, outcome: Outcome)
    requires HistoryInv(cfg, s) && AtWork(s, pid) && s.writers[pid].phase.Written?
    requires outcome == WriteMapping(cfg.defaults, TableOf(s, s.writers[pid].request.tenant), s.writers[pid].request)
    ensures HistoryInv(cfg, Decided(cfg, s, pid, outcome))
  {
    var t := Decided(cfg, s, pid, outcome);
    if outcome.Rejected? { HistoryEnds(cfg, s, pid, Some(outcome), t); } else { HistoryStays(cfg, s, t); }
  }

  lemma {:induction false} HistoryValidate(cfg: Config, s: State, pid: Pid)
    requires LockInv(cfg, s) && HistoryInv(cfg, s)
    ensures HistoryInv(cfg, ValidateStep(cfg, s, pid))
  {
    if AtWork(s, pid) && s.writers[pid].phase.Written? {
      var outcome := ValidateDecides(cfg, s, pid);
      HistoryDecided(cfg, s, pid, outcome);
    }
  }

  lemma {:induction false} TicketEnds(cfg: Config, s: State, pid: Pid, outcome: Option<Outcome>, t: State)
    requires LockInv(cfg, s) && TicketOrder(cfg, s) && Ends(cfg, s, pid, t)
    requires t.log == s.log + [LogEntry(s.writers[pid].ticket, s.writers[pid].request, outcome)]
    ensures TicketOrder(cfg, t)
  {
    assert WriterInv(cfg, s, pid, s.writers[pid]);
    forall p, i | AtWork(t, p) && 0 <= i < |t.log| && SameLock(cfg, t.log[i].request, t.writers[p].request)
      ensures t.log[i].ticket < t.writers[p].ticket
    {
      assert AtWork(s, p) && WriterInv(cfg, s, p, s.writers[p]);
    }
  }

  lemma {:induction false} TicketStays(cfg: Config, s: State, t: State)
    requires TicketOrder(cfg, s) && t.log == s.log && s.tickets <= t.tickets && KeepsWork(s, t)
    ensures TicketOrder(cfg, t)
  {}

  lemma {:induction false} TicketAct(cfg: Config, s: State, e: Event)
    requires LockInv(cfg, s) && TicketOrder(cfg, s)
    ensures TicketOrder(cfg, Act(cfg, s, e))
  {
    if Quiet(e) {
      QuietEffect(cfg, s, e);
      QuietKeepsWork(cfg, s, e);
      TicketStays(cfg, s, Act(cfg, s, e));
    } else {
      match e
      case Validate(pid) => TicketValidate(cfg, s, pid);
      case Commit(pid) => TicketCommit(cfg, s, pid);
      case Abort(pid) => TicketAbort(cfg, s, pid);
      case Sweep(pid) =>
        WorkMoves(s, SweepStep(s, pid), pid);
        TicketStays(cfg, s, SweepStep(s, pid));
    }
  }

  lemma {:induction false} TicketCommit(cfg: Config, s: State, pid: Pid)
    requires LockInv(cfg, s) && TicketOrder(cfg, s)
    ensures TicketOrder(cfg, CommitStep(cfg, s, pid))
  {
    if AtWork(s, pid) && ReadyToCommit(s.writers[pid].phase) {
      LockInvCommit(cfg, s, pid);
      TicketEnds(cfg, s, pid, Some(s.writers[pid].phase.outcome), Committed(cfg, s, pid));
    }
  }

  lemma {:induction false} TicketAbort(cfg: Config, s: State, pid: Pid)
    requires LockInv(cfg, s) && TicketOrder(cfg, s)
    ensures TicketOrder(cfg, AbortStep(cfg, s, pid))
  {
    if AtWork(s, pid) { TicketEnds(cfg, s, pid, None, Released(cfg, s, pid, None)); }
  }

  lemma {:induction false} TicketDecided(cfg: Config, s: State, pid: Pid, outcome: Outcome)
    requires LockInv(cfg, s) && TicketOrder(cfg, s) && AtWork(s, pid) && s.writers[pid].phase.Written?
    ensures TicketOrder(cfg, Decided(cfg, s, pid, outcome))
  {
    var t := Decided(cfg, s, pid, outcome);
    if outcome.Rejected? { TicketEnds(cfg, s, pid, Some(outcome), t); } else { TicketStays(cfg, s, t); }
  }

  lemma {:induction false} TicketValidate(cfg: Config, s: State, pid: Pid)
    requires LockInv(cfg, s) && TicketOrder(cfg, s)
    ensures TicketOrder(cfg, ValidateStep(cfg, s, pid))
  {
    if AtWork(s, pid) && s.writers[pid].phase.Written? {
      var outcome := ValidateDecides(cfg, s, pid);
      TicketDecided(cfg, s, pid, outcome);
    }
  }

  // ----- grants -------------------------------------------------------------------------

  /** The role scopes of a grant or a login lie inside the role's current effective scopes. */
  predicate Inside(cfg: Config, s: State, t: Id, role: Role, scopes: Scopes) {
    scopes - STANDARD_OIDC_SCOPES <= Expand(Effective(cfg.defaults, TableOf(s, t), role))
  }

  predicate Concerns(n: Narrowing, t: Id, role: Role) { n.tenant == t && n.role == role }

  /** A narrowing of the grant's role that its login read ahead of, that missed the grant with
      its delete, and whose sweep is still to run or ran before the grant was saved. */
  predicate Missed(n: Narrowing, g: Grant) {
    && Concerns(n, g.tenant, g.role) && g.readAt < n.committedAt && n.revokedAt < g.savedAt
    && (n.sweptAt.None? || n.sweptAt.value < g.savedAt)
  }

  ghost predicate InWindow(s: State, g: Grant) { exists n :: n in s.narrowings && Missed(n, g) }

  ghost predicate Overtaken(s: State, t: Id, role: Role, readAt: Time) {
    exists n :: n in s.narrowings && Concerns(n, t, role) && readAt < n.committedAt
  }

  ghost predicate GrantInv(cfg: Config, s: State) {
    && (forall g :: g in s.grants ==> GrantOk(cfg, s, s.grants[g]))
    && (forall l :: l in s.logins && s.logins[l].Pending? ==> LoginOk(cfg, s, s.logins[l]))
    && (forall n :: n in s.narrowings ==> PastNarrowing(s, n))
    && (forall p :: AtWork(s, p) && s.writers[p].phase.Revoked? ==> DoomedOk(s, s.writers[p]))
  }

  ghost predicate GrantOk(cfg: Config, s: State, g: Grant) {
    g.readAt < s.clock && g.savedAt < s.clock && (Inside(cfg, s, g.tenant, g.role, g.scopes) || InWindow(s, g))
  }

  ghost predicate LoginOk(cfg: Config, s: State, l: Login)
    requires l.Pending?
  {
    l.readAt < s.clock && (Inside(cfg, s, l.tenant, l.role, l.scopes) || Overtaken(s, l.tenant, l.role, l.readAt))
  }

  predicate PastNarrowing(s: State, n: Narrowing) {
    n.revokedAt < s.clock && n.committedAt < s.clock && (n.sweptAt.Some? ==> n.sweptAt.value < s.clock)
  }

  /** The in-transaction delete matched every grant of the role saved before it. */
  ghost predicate DoomedOk(s: State, w: Writer)
    requires w.Working? && w.phase.Revoked?
  {
    && w.phase.revokedAt < s.clock
    && forall g :: g in GrantsOfRole(s, w.request.tenant, w.request.role) ==>
         s.grants[g].savedAt <= w.phase.revokedAt ==> g in w.phase.doomed
  }

  /** Nothing about grants, logins, narrowings or tables changes; time moves on. */
  lemma {:induction false} GrantsIdle(cfg: Config, s: State, t: State)
    requires GrantInv(cfg, s) && t.clock == s.clock + 1
    requires t.tables == s.tables && t.grants == s.grants && t.logins == s.logins && t.narrowings == s.narrowings
    requires forall p :: AtWork(t, p) && t.writers[p].phase.Revoked? ==>
      || (AtWork(s, p) && s.writers[p] == t.writers[p])
      || (t.writers[p].phase.revokedAt == s.clock
          && t.writers[p].phase.doomed == GrantsOfRole(s, t.writers[p].request.tenant, t.writers[p].request.role))
    ensures GrantInv(cfg, t)
  {
    forall g | g in t.grants ensures GrantOk(cfg, t, t.grants[g]) { assert GrantOk(cfg, s, s.grants[g]); }
    forall l | l in t.logins && t.logins[l].Pending? ensures LoginOk(cfg, t, t.logins[l]) {
      assert LoginOk(cfg, s, s.logins[l]);
    }
    forall n | n in t.narrowings ensures PastNarrowing(t, n) { assert PastNarrowing(s, n); }
    forall p | AtWork(t, p) && t.writers[p].phase.Revoked? ensures DoomedOk(t, t.writers[p]) {
      if AtWork(s, p) && s.writers[p] == t.writers[p] { assert DoomedOk(s, s.writers[p]); }
    }
  }

  lemma {:induction false} AllowedIsInside(requested: Scopes, effective: Scopes)
    requires requested <= STANDARD_OIDC_SCOPES + effective
    ensures requested - STANDARD_OIDC_SCOPES <= Expand(effective)
  {
    forall x | x in requested && x !in STANDARD_OIDC_SCOPES ensures x in Expand(effective) {
      assert x in STANDARD_OIDC_SCOPES + effective;
    }
  }

  /** One login's entry is new; everything else about grants stays. */
  lemma {:induction false} GrantsLoginPut(cfg: Config, s: State, lid: Id, l: Login, t: State)
    requires GrantInv(cfg, s) && t == s.(clock := s.clock + 1, logins := s.logins[lid := l])
    requires l.Pending? ==> LoginOk(cfg, t, l)
    ensures GrantInv(cfg, t)
  {
    var idle := s.(clock := s.clock + 1);
    GrantsIdle(cfg, s, idle);
    forall g | g in t.grants ensures GrantOk(cfg, t, t.grants[g]) { assert GrantOk(cfg, idle, idle.grants[g]); }
    forall k | k in t.logins && t.logins[k].Pending? ensures LoginOk(cfg, t, t.logins[k]) {
      if k != lid { assert LoginOk(cfg, idle, idle.logins[k]); }
    }
    forall n | n in t.narrowings ensures PastNarrowing(t, n) { assert PastNarrowing(idle, n); }
    forall p | AtWork(t, p) && t.writers[p].phase.Revoked? ensures DoomedOk(t, t.writers[p]) {
      assert AtWork(idle, p) && DoomedOk(idle, idle.writers[p]);
    }
  }

  lemma {:induction false} FreshLoginOk(cfg: Config, s: State, t: State, l: Login)
    requires l.Pending? && l.readAt < t.clock && t.tables == s.tables
    requires Allowed(cfg, s, l.tenant, l.role, l.scopes)
    ensures LoginOk(cfg, t, l)
  {
    AllowedIsInside(l.scopes, Effective(cfg.defaults, TableOf(s, l.tenant), l.role));
    assert Inside(cfg, t, l.tenant, l.role, l.scopes);
  }

  lemma {:induction false} LoginReadEffect(
      cfg: Config, s: State, lid: Id, tenant: Id, role: Role, requested: Scopes) returns (l: Login)
    requires lid !in s.logins
    ensures LoginReadStep(cfg, s, lid, tenant, role, requested) == s.(logins := s.logins[lid := l])
    ensures l.Pending? ==> l.readAt == s.clock && Allowed(cfg, s, l.tenant, l.role, l.scopes)
  {
    l := LoginReadStep(cfg, s, lid, tenant, role, requested).logins[lid];
  }

  lemma {:induction false} GrantsLoginRead(cfg: Config, s: State, lid: Id, tenant: Id, role: Role, requested: Scopes)
    requires GrantInv(cfg, s)
    ensures GrantInv(cfg, LoginReadStep(cfg, s, lid, tenant, role, requested).(clock := s.clock + 1))
  {
    if lid in s.logins {
      GrantsIdle(cfg, s, s.(clock := s.clock + 1));
    } else {
      var l := LoginReadEffect(cfg, s, lid, tenant, role, requested);
      GrantsLoginPending(cfg, s, lid, l);
    }
  }

  lemma {:induction false} GrantsLoginPending(cfg: Config, s: State, lid: Id, l: Login)
    requires GrantInv(cfg, s)
    requires l.Pending? ==> l.readAt == s.clock && Allowed(cfg, s, l.tenant, l.role, l.scopes)
    ensures GrantInv(cfg, s.(logins := s.logins[lid := l], clock := s.clock + 1))
  {
    var t := s.(logins := s.logins[lid := l], clock := s.clock + 1);
    if l.Pending? { FreshLoginOk(cfg, s, t, l); }
    GrantsLoginPut(cfg, s, lid, l, t);
  }

  /** A login saves its grant now. */
  lemma {:induction false} SavedGrantOk(cfg: Config, s: State, l: Login, g: Grant, t: State)
    requires GrantInv(cfg, s) && l.Pending? && LoginOk(cfg, s, l)
    requires g == Grant(l.tenant, l.role, l.scopes, l.readAt, s.clock)
    requires t.clock == s.clock + 1 && t.tables == s.tables && t.narrowings == s.narrowings
    ensures GrantOk(cfg, t, g)
  {
    if !Inside(cfg, s, l.tenant, l.role, l.scopes) {
      var n :| n in s.narrowings && Concerns(n, l.tenant, l.role) && l.readAt < n.committedAt;
      assert PastNarrowing(s, n) && Missed(n, g);
    }
  }

  lemma {:induction false} GrantsGrantPut(cfg: Config, s: State, lid: Id, g: Grant, t: State)
    requires GrantInv(cfg, s) && GrantOk(cfg, t, g) && g.savedAt == s.clock
    requires t == s.(clock := s.clock + 1, logins := s.logins[lid := Over], grants := s.grants[lid := g])
    ensures GrantInv(cfg, t)
  {
    var idle := s.(clock := s.clock + 1);
    GrantsIdle(cfg, s, idle);
    forall k | k in t.grants ensures GrantOk(cfg, t, t.grants[k]) {
      if k != lid { assert GrantOk(cfg, idle, idle.grants[k]); }
    }
    forall k | k in t.logins && t.logins[k].Pending? ensures LoginOk(cfg, t, t.logins[k]) {
      assert LoginOk(cfg, idle, idle.logins[k]);
    }
    forall n | n in t.narrowings ensures PastNarrowing(t, n) { assert PastNarrowing(idle, n); }
    forall p | AtWork(t, p) && t.writers[p].phase.Revoked? ensures DoomedOk(t, t.writers[p]) {
      assert AtWork(s, p) && DoomedOk(s, s.writers[p]);
    }
  }

  lemma {:induction false} GrantsLoginSave(cfg: Config, s: State, lid: Id)
    requires GrantInv(cfg, s)
    ensures GrantInv(cfg, LoginSaveStep(s, lid).(clock := s.clock + 1))
  {
    var t := LoginSaveStep(s, lid).(clock := s.clock + 1);
    if lid !in s.logins || !s.logins[lid].Pending? {
      GrantsIdle(cfg, s, t);
    } else {
      var l := s.logins[lid];
      SavedGrantOk(cfg, s, l, t.grants[lid], t);
      GrantsGrantPut(cfg, s, lid, t.grants[lid], t);
    }
  }

  /** A commit leaves every role inside its new scopes but the one it narrowed. */
  lemma {:induction false} InsideAfterCommit(cfg: Config, s: State, pid: Pid, t: Id, role: Role, scopes: Scopes)
    requires LockInv(cfg, s) && AtWork(s, pid) && ReadyToCommit(s.writers[pid].phase)
    requires Inside(cfg, s, t, role, scopes)
    ensures var w := s.writers[pid];
            (w.phase.outcome.narrowed && w.request.tenant == t && w.request.role == role)
            || Inside(cfg, Committed(cfg, s, pid), t, role, scopes)
  {
    var w := s.writers[pid];
    assert WriterInv(cfg, s, pid, w);
    AcceptedWrite(cfg.defaults, TableOf(s, w.request.tenant), w.request);
    CommitEnds(cfg, s, pid);
  }

  lemma {:induction false} GrantsCommit(cfg: Config, s: State, pid: Pid)
    requires LockInv(cfg, s) && GrantInv(cfg, s) && AtWork(s, pid) && ReadyToCommit(s.writers[pid].phase)
    ensures GrantInv(cfg, Committed(cfg, s, pid).(clock := s.clock + 1))
  {
    var t := Committed(cfg, s, pid).(clock := s.clock + 1);
    CommitLeaves(cfg, s, pid);
    forall g | g in t.grants ensures GrantOk(cfg, t, t.grants[g]) { GrantAfterCommit(cfg, s, pid, g); }
    forall l | l in t.logins && t.logins[l].Pending? ensures LoginOk(cfg, t, t.logins[l]) {
      LoginAfterCommit(cfg, s, pid, s.logins[l]);
    }
    forall n | n in t.narrowings ensures PastNarrowing(t, n) { NarrowingAfterCommit(cfg, s, pid, n); }
    forall p | AtWork(t, p) && t.writers[p].phase.Revoked? ensures DoomedOk(t, t.writers[p]) {
      DoomedAfterCommit(s, t, p);
    }
  }

  lemma {:induction false} CommitLeaves(cfg: Config, s: State, pid: Pid)
    requires AtWork(s, pid) && ReadyToCommit(s.writers[pid].phase)
    ensures var t := Committed(cfg, s, pid);
            && t.logins == s.logins
            && (forall g :: g in t.grants ==> g in s.grants && t.grants[g] == s.grants[g])
            && (forall p :: AtWork(t, p) ==> AtWork(s, p) && s.writers[p] == t.writers[p])
  {}

  lemma {:induction false} NarrowingAfterCommit(cfg: Config, s: State, pid: Pid, n: Narrowing)
    requires GrantInv(cfg, s) && AtWork(s, pid) && ReadyToCommit(s.writers[pid].phase)
    requires n in Committed(cfg, s, pid).narrowings
    ensures PastNarrowing(Committed(cfg, s, pid).(clock := s.clock + 1), n)
  {
    if n in s.narrowings {
      assert PastNarrowing(s, n);
    } else {
      assert DoomedOk(s, s.writers[pid]);
    }
  }

  lemma {:induction false} DoomedAfterCommit(s: State, t: State, p: Pid)
    requires AtWork(s, p) && AtWork(t, p) && s.writers[p] == t.writers[p] && t.clock == s.clock + 1
    requires t.writers[p].phase.Revoked? && DoomedOk(s, s.writers[p])
    requires forall g :: g in t.grants ==> g in s.grants && t.grants[g] == s.grants[g]
    ensures DoomedOk(t, t.writers[p])
  {
    var w := t.writers[p];
    forall g | g in GrantsOfRole(t, w.request.tenant, w.request.role) && t.grants[g].savedAt <= w.phase.revokedAt
      ensures g in w.phase.doomed
    {
      assert g in GrantsOfRole(s, w.request.tenant, w.request.role);
    }
  }

  lemma {:induction false} GrantAfterCommit(cfg: Config, s: State, pid: Pid, g: Id)
    requires LockInv(cfg, s) && AtWork(s, pid) && ReadyToCommit(s.writers[pid].phase)
    requires g in Committed(cfg, s, pid).grants && g in s.grants && GrantOk(cfg, s, s.grants[g])
    requires s.writers[pid].phase.Revoked? ==> DoomedOk(s, s.writers[pid])
    ensures GrantOk(cfg, Committed(cfg, s, pid).(clock := s.clock + 1), s.grants[g])
  {
    var t, w, grant := Committed(cfg, s, pid).(clock := s.clock + 1), s.writers[pid], s.grants[g];
    assert WriterInv(cfg, s, pid, w);
    if InWindow(s, grant) {
      var n :| n in s.narrowings && Missed(n, grant);
      assert n in t.narrowings;
    } else {
      InsideAfterCommit(cfg, s, pid, grant.tenant, grant.role, grant.scopes);
      if w.phase.outcome.narrowed && w.request.tenant == grant.tenant && w.request.role == grant.role {
        var n := t.narrowings[|s.narrowings|];
        assert g in GrantsOfRole(s, w.request.tenant, w.request.role);
        assert Missed(n, grant) && n in t.narrowings;
      }
    }
  }

  lemma {:induction false} LoginAfterCommit(cfg: Config, s: State, pid: Pid, l: Login)
    requires LockInv(cfg, s) && AtWork(s, pid) && ReadyToCommit(s.writers[pid].phase)
    requires l.Pending? && LoginOk(cfg, s, l)
    ensures LoginOk(cfg, Committed(cfg, s, pid).(clock := s.clock + 1), l)
  {
    var t, w := Committed(cfg, s, pid).(clock := s.clock + 1), s.writers[pid];
    assert WriterInv(cfg, s, pid, w);
    if Overtaken(s, l.tenant, l.role, l.readAt) {
      var n :| n in s.narrowings && Concerns(n, l.tenant, l.role) && l.readAt < n.committedAt;
      assert n in t.narrowings;
    } else {
      InsideAfterCommit(cfg, s, pid, l.tenant, l.role, l.scopes);
      if w.phase.outcome.narrowed && w.request.tenant == l.tenant && w.request.role == l.role {
        assert Concerns(t.narrowings[|s.narrowings|], l.tenant, l.role) && t.narrowings[|s.narrowings|] in t.narrowings;
      }
    }
  }

  /** What a sweep leaves of the narrowings. */
  ghost predicate Swept(s: State, k: nat, t: State) {
    && k < |s.narrowings| && t.clock == s.clock + 1 && t.tables == s.tables && t.logins == s.logins
    && t.narrowings == s.narrowings[k := s.narrowings[k].(sweptAt := Some(s.clock))]
    && t.grants == s.grants - GrantsOfRole(s, s.narrowings[k].tenant, s.narrowings[k].role)
  }

  lemma {:induction false} GrantAfterSweep(cfg: Config, s: State, k: nat, t: State, g: Id)
    requires Swept(s, k, t) && g in t.grants && GrantOk(cfg, s, s.grants[g])
    ensures GrantOk(cfg, t, t.grants[g])
  {
    if InWindow(s, s.grants[g]) {
      var n :| n in s.narrowings && Missed(n, s.grants[g]);
      var i :| 0 <= i < |s.narrowings| && s.narrowings[i] == n;
      assert g !in GrantsOfRole(s, s.narrowings[k].tenant, s.narrowings[k].role);
      assert t.narrowings[i] == n && n in t.narrowings;
    }
  }

  lemma {:induction false} LoginAfterSweep(cfg: Config, s: State, k: nat, t: State, l: Login)
    requires Swept(s, k, t) && l.Pending? && LoginOk(cfg, s, l)
    ensures LoginOk(cfg, t, l)
  {
    if Overtaken(s, l.tenant, l.role, l.readAt) {
      var n :| n in s.narrowings && Concerns(n, l.tenant, l.role) && l.readAt < n.committedAt;
      var i :| 0 <= i < |s.narrowings| && s.narrowings[i] == n;
      assert t.narrowings[i] in t.narrowings && Concerns(t.narrowings[i], l.tenant, l.role);
    }
  }

  lemma {:induction false} GrantsSwept(cfg: Config, s: State, k: nat, t: State)
    requires GrantInv(cfg, s) && Swept(s, k, t)
    requires forall p :: AtWork(t, p) ==> AtWork(s, p) && s.writers[p] == t.writers[p]
    ensures GrantInv(cfg, t)
  {
    forall g | g in t.grants ensures GrantOk(cfg, t, t.grants[g]) { GrantAfterSweep(cfg, s, k, t, g); }
    forall l | l in t.logins && t.logins[l].Pending? ensures LoginOk(cfg, t, t.logins[l]) {
      LoginAfterSweep(cfg, s, k, t, s.logins[l]);
    }
    forall n | n in t.narrowings ensures PastNarrowing(t, n) {
      var i :| 0 <= i < |t.narrowings| && t.narrowings[i] == n;
      assert s.narrowings[i] in s.narrowings && PastNarrowing(s, s.narrowings[i]);
    }
    forall p | AtWork(t, p) && t.writers[p].phase.Revoked? ensures DoomedOk(t, t.writers[p]) {
      assert DoomedOk(s, s.writers[p]);
    }
  }

  lemma {:induction false} GrantsSweep(cfg: Config, s: State, pid: Pid)
    requires GrantInv(cfg, s)
    ensures GrantInv(cfg, SweepStep(s, pid).(clock := s.clock + 1))
  {
    var t := SweepStep(s, pid).(clock := s.clock + 1);
    if pid in s.writers && s.writers[pid].Sweeping? && s.writers[pid].narrowing < |s.narrowings| {
      GrantsSwept(cfg, s, s.writers[pid].narrowing, t);
    } else {
      GrantsIdle(cfg, s, t);
    }
  }

  /** One writer moves on without touching grants, narrowings or tables. */
  lemma {:induction false} GrantsWriter(cfg: Config, s: State, t: State, pid: Pid)
    requires GrantInv(cfg, s) && OnlyMoves(s, t, pid)
    ensures GrantInv(cfg, t.(clock := s.clock + 1))
  {
    GrantsIdle(cfg, s, t.(clock := s.clock + 1));
  }

  lemma {:induction false} GrantsRevoke(cfg: Config, s: State, pid: Pid)
    requires GrantInv(cfg, s)
    ensures GrantInv(cfg, RevokeStep(s, pid).(clock := s.clock + 1))
  {
    GrantsIdle(cfg, s, RevokeStep(s, pid).(clock := s.clock + 1));
  }

  /** What a step that only moves one writer leaves alone. */
  ghost predicate OnlyMoves(s: State, t: State, pid: Pid) {
    && t.clock == s.clock && t.tables == s.tables && t.grants == s.grants && t.logins == s.logins
    && t.narrowings == s.narrowings
    && (t.writers == s.writers || (pid in t.writers && t.writers == s.writers[pid := t.writers[pid]]
                                   && (AtWork(t, pid) ==> !t.writers[pid].phase.Revoked?)))
  }

  lemma {:induction false} ValidateMoves(cfg: Config, s: State, pid: Pid)
    ensures OnlyMoves(s, ValidateStep(cfg, s, pid), pid)
  {}

  lemma {:induction false} AbortMoves(cfg: Config, s: State, pid: Pid)
    ensures OnlyMoves(s, AbortStep(cfg, s, pid), pid)
  {}

  lemma {:induction false} EarlyStepsMove(cfg: Config, s: State, pid: Pid, request: Request)
    ensures OnlyMoves(s, SubmitStep(s, pid, request), pid) && OnlyMoves(s, LockStep(cfg, s, pid), pid)
    ensures OnlyMoves(s, ReadStep(s, pid), pid) && OnlyMoves(s, WriteStep(s, pid), pid)
  {}

  lemma {:induction false} GrantsMoves(cfg: Config, s: State, e: Event)
    requires GrantInv(cfg, s)
    requires e.Submit? || e.Lock? || e.Read? || e.Write? || e.Validate? || e.Abort?
    ensures GrantInv(cfg, Step(cfg, s, e))
  {
    assert OnlyMoves(s, Act(cfg, s, e), e.pid) by {
      match e
      case Validate(pid) => ValidateMoves(cfg, s, pid);
      case Abort(pid) => AbortMoves(cfg, s, pid);
      case Submit(pid, request) => EarlyStepsMove(cfg, s, pid, request);
      case Lock(pid) => EarlyStepsMove(cfg, s, pid, Request(0, Owner, Reset, {}, false));
      case Read(pid) => EarlyStepsMove(cfg, s, pid, Request(0, Owner, Reset, {}, false));
      case Write(pid) => EarlyStepsMove(cfg, s, pid, Request(0, Owner, Reset, {}, false));
    }
    GrantsWriter(cfg, s, Act(cfg, s, e), e.pid);
  }

  lemma {:induction false} GrantsCommitStep(cfg: Config, s: State, e: Event)
    requires LockInv(cfg, s) && GrantInv(cfg, s) && e.Commit?
    ensures GrantInv(cfg, Step(cfg, s, e))
  {
    if AtWork(s, e.pid) && ReadyToCommit(s.writers[e.pid].phase) {
      GrantsCommit(cfg, s, e.pid);
    } else {
      GrantsWriter(cfg, s, s, e.pid);
    }
  }

  lemma {:induction false} GrantsLogin(cfg: Config, s: State, e: Event)
    requires GrantInv(cfg, s) && (e.LoginRead? || e.LoginSave?)
    ensures GrantInv(cfg, Step(cfg, s, e))
  {
    match e
    case LoginRead(lid, tenant, role, requested) => GrantsLoginRead(cfg, s, lid, tenant, role, requested);
    case LoginSave(lid) => GrantsLoginSave(cfg, s, lid);
  }

  lemma {:induction false} GrantsDelete(cfg: Config, s: State, e: Event)
    requires GrantInv(cfg, s) && (e.Sweep? || e.RevokeGrants?)
    ensures GrantInv(cfg, Step(cfg, s, e))
  {
    match e
    case Sweep(pid) => GrantsSweep(cfg, s, pid);
    case RevokeGrants(pid) => GrantsRevoke(cfg, s, pid);
  }

  lemma {:induction false} GrantsStep(cfg: Config, s: State, e: Event)
    requires LockInv(cfg, s) && GrantInv(cfg, s)
    ensures GrantInv(cfg, Step(cfg, s, e))
  {
    if e.Commit? {
      GrantsCommitStep(cfg, s, e);
    } else if e.LoginRead? || e.LoginSave? {
      GrantsLogin(cfg, s, e);
    } else if e.Sweep? || e.RevokeGrants? {
      GrantsDelete(cfg, s, e);
    } else {
      GrantsMoves(cfg, s, e);
    }
  }

  /** Everything asked for is a protocol scope or one of the role's. */
  predicate AsksWithin(requested: Scopes, effective: Scopes) {
    forall x :: x in requested ==>
      x == OpenId || x == Profile || x == Email || x == TenantClaim || x == OfflineAccess || x in effective
  }

  lemma {:induction false} AllowedExactly(requested: Scopes, effective: Scopes)
    ensures requested <= STANDARD_OIDC_SCOPES + effective <==> AsksWithin(requested, effective)
  {
    assert forall x :: x in STANDARD_OIDC_SCOPES
             <==> x == OpenId || x == Profile || x == Email || x == TenantClaim || x == OfflineAccess;
    if AsksWithin(requested, effective) {
      forall x | x in requested ensures x in STANDARD_OIDC_SCOPES + effective {}
    }
  }

  /** A login goes on to save its grant if and only if everything it asked for is a protocol scope
      or one its role has in the tenant at that moment. */
  lemma {:induction false} LoginExactly(cfg: Config, s: State, lid: Id, tenant: Id, role: Role, requested: Scopes)
    requires lid !in s.logins
    ensures var t := Step(cfg, s, LoginRead(lid, tenant, role, requested));
            && lid in t.logins && t == s.(clock := s.clock + 1, logins := s.logins[lid := t.logins[lid]])
            && t.logins[lid] == if AsksWithin(requested, Effective(cfg.defaults, TableOf(s, tenant), role))
                                then Pending(tenant, role, requested, s.clock) else Over
  {
    AllowedExactly(requested, Effective(cfg.defaults, TableOf(s, tenant), role));
    LoginReadLogs(cfg, s, lid, tenant, role, requested);
  }

  lemma {:induction false} LoginReadLogs(cfg: Config, s: State, lid: Id, tenant: Id, role: Role, requested: Scopes)
    requires lid !in s.logins
    ensures var allowed := Allowed(cfg, s, tenant, role, requested);
            var l := if allowed then Pending(tenant, role, requested, s.clock) else Over;
            LoginReadStep(cfg, s, lid, tenant, role, requested) == s.(logins := s.logins[lid := l])
  {}

  /** A transaction that is cut off leaves no trace in tables, grants or audit log, and frees its
      lock. */
  lemma {:induction false} AbortLeavesNothing(cfg: Config, s: State, pid: Pid)
    requires AtWork(s, pid)
    ensures var t := Step(cfg, s, Abort(pid));
            && t.tables == s.tables && t.grants == s.grants && t.audit == s.audit && t.narrowings == s.narrowings
            && t.writers == s.writers[pid := Finished]
            && cfg.lockKey(s.writers[pid].request.tenant) !in t.locks
            && forall k :: k in s.locks && k != cfg.lockKey(s.writers[pid].request.tenant) ==>
                 k in t.locks && t.locks[k] == s.locks[k]
  {}

  /** A sweep takes exactly the role's grants, and reports it in one entry if there were any. */
  lemma {:induction false} SweepReports(cfg: Config, s: State, pid: Pid)
    requires pid in s.writers && s.writers[pid].Sweeping? && s.writers[pid].narrowing < |s.narrowings|
    ensures var t, n := Step(cfg, s, Sweep(pid)), s.narrowings[s.writers[pid].narrowing];
            && (forall g :: g in t.grants <==>
                  g in s.grants && !(s.grants[g].tenant == n.tenant && s.grants[g].role == n.role))
            && (forall g :: g in t.grants ==> t.grants[g] == s.grants[g])
            && t.tables == s.tables && pid in t.writers && t.writers[pid].Finished?
            && (t.grants == s.grants ==> t.audit == s.audit)
            && (t.grants != s.grants ==>
                  && |t.audit| == |s.audit| + 1 && t.audit[..|s.audit|] == s.audit
                  && t.audit[|s.audit|].tenant == n.tenant && t.audit[|s.audit|].role == n.role
                  && t.audit[|s.audit|].action == Action.Revoke)
  {
    var n := s.narrowings[s.writers[pid].narrowing];
    var late := GrantsOfRole(s, n.tenant, n.role);
    assert s.grants - late == s.grants <==> late == {} by {
      if late != {} {
        var g :| g in late;
        assert g in s.grants && g !in s.grants - late;
      }
    }
  }

  // ----- every run ----------------------------------------------------------------------

  ghost predicate Sound(cfg: Config, s: State) {
    LockInv(cfg, s) && HistoryInv(cfg, s) && TicketOrder(cfg, s) && GrantInv(cfg, s)
  }

  lemma {:induction false} SoundStart(cfg: Config)
    requires Contained(cfg.defaults, map[])
    ensures Sound(cfg, EMPTY)
  {
    assert forall t: Id :: TableHistory(cfg, EMPTY, t);
  }

  /** Time alone changes nothing but the clock. */
  lemma {:induction false} ClockMoves(cfg: Config, s: State, t: State)
    requires LockInv(cfg, s) && HistoryInv(cfg, s) && TicketOrder(cfg, s) && t == s.(clock := t.clock)
    ensures LockInv(cfg, t) && HistoryInv(cfg, t) && TicketOrder(cfg, t)
  {
    LockInvSame(cfg, s, t);
    HistoryStays(cfg, s, t);
    TicketStays(cfg, s, t);
  }

  lemma {:induction false} RunSound(cfg: Config, es: seq<Event>)
    requires Contained(cfg.defaults, map[])
    ensures Sound(cfg, Run(cfg, es))
  {
    if es == [] {
      SoundStart(cfg);
    } else {
      var s, e := Run(cfg, es[..|es| - 1]), es[|es| - 1];
      RunSound(cfg, es[..|es| - 1]);
      LockInvAct(cfg, s, e);
      HistoryAct(cfg, s, e);
      TicketAct(cfg, s, e);
      ClockMoves(cfg, Act(cfg, s, e), Step(cfg, s, e));
      GrantsStep(cfg, s, e);
    }
  }

  /** In every state of every run each tenant's committed mapping keeps each role's expanded
      scopes inside those of every higher role, and the owner has its default scopes. */
  lemma {:induction false} HierarchyAlwaysHolds(cfg: Config, es: seq<Event>, t: Id)
    requires Contained(cfg.defaults, map[])
    ensures Contained(cfg.defaults, TableOf(Run(cfg, es), t))
    ensures Effective(cfg.defaults, TableOf(Run(cfg, es), t), Owner) == ScopesIn(cfg.defaults, Owner)
  {
    RunSound(cfg, es);
    assert TableHistory(cfg, Run(cfg, es), t);
  }

  /** The superuser scope, which expands to every other, stays exclusive to the owner. */
  lemma {:induction false} SuperuserStaysWithOwner(cfg: Config, es: seq<Event>, t: Id, role: Role)
    requires Contained(cfg.defaults, map[]) && role != Owner && TenantsAdmin !in ScopesIn(cfg.defaults, role)
    ensures TenantsAdmin !in Effective(cfg.defaults, TableOf(Run(cfg, es), t), role)
  {
    RunSound(cfg, es);
    assert TableHistory(cfg, Run(cfg, es), t);
  }

  /** Writers that interleave in any way have the outcomes, and leave the tables, of the same
      requests run one by one in the order in which they took their tenant's lock. */
  lemma {:induction false} WritesAreSerial(cfg: Config, es: seq<Event>)
    requires Contained(cfg.defaults, map[])
    ensures var s := Run(cfg, es);
            && LogFaithful(cfg, s.log)
            && (forall t: Id :: TableOf(s, t) == Serial(cfg, s.log, t))
            && (forall i, j :: 0 <= i < j < |s.log| && s.log[i].request.tenant == s.log[j].request.tenant ==>
                  s.log[i].ticket < s.log[j].ticket)
  {
    RunSound(cfg, es);
    var s := Run(cfg, es);
    forall t: Id ensures TableOf(s, t) == Serial(cfg, s.log, t) { assert TableHistory(cfg, s, t); }
    forall i, j | 0 <= i < j < |s.log| && s.log[i].request.tenant == s.log[j].request.tenant
      ensures s.log[i].ticket < s.log[j].ticket
    {
      assert SameLock(cfg, s.log[i].request, s.log[j].request);
    }
  }

  /** Replaying a tenant's audit entries from nothing rebuilds exactly its override table, and
      each entry's previous scopes are what replay gives just before it. */
  lemma {:induction false} AuditReplays(cfg: Config, es: seq<Event>, t: Id)
    requires Contained(cfg.defaults, map[])
    ensures Replay(Run(cfg, es).audit, t) == TableOf(Run(cfg, es), t)
    ensures PreviousMatches(cfg.defaults, Run(cfg, es).audit)
  {
    RunSound(cfg, es);
    assert TableHistory(cfg, Run(cfg, es), t);
  }

  /** A stored grant exceeds its role's current scopes only if its login read the mapping before
      some narrowing committed, that write's delete ran before the grant was saved, and so did
      its sweep, unless the sweep is still to run. */
  lemma {:induction false} OnlyWindowGrantsExceed(cfg: Config, es: seq<Event>, g: Id)
    requires Contained(cfg.defaults, map[]) && g in Run(cfg, es).grants
    ensures var s := Run(cfg, es);
            var grant := s.grants[g];
            Inside(cfg, s, grant.tenant, grant.role, grant.scopes) || InWindow(s, grant)
  {
    RunSound(cfg, es);
    assert GrantOk(cfg, Run(cfg, es), Run(cfg, es).grants[g]);
  }

  // ----- the window that remains --------------------------------------------------------

  lemma {:induction false} RunMore(cfg: Config, es: seq<Event>, e: Event)
    ensures Run(cfg, es + [e]) == Step(cfg, Run(cfg, es), e)
  {
    assert (es + [e])[..|es|] == es;
  }

  /** A login of the written role has read `scope` and not saved yet. */
  predicate Waits(s: State, lid: Id, request: Request, scope: Scope) {
    && lid in s.logins && s.logins[lid].Pending? && s.logins[lid].tenant == request.tenant
    && s.logins[lid].role == request.role && s.logins[lid].scopes == {scope}
  }

  predicate InProgress(s: State, pid: Pid, request: Request, before: RoleMap, phase: Phase) {
    && AtWork(s, pid) && s.writers[pid].request == request && s.writers[pid].phase == phase
    && TableOf(s, request.tenant) == before
  }

  lemma {:induction false} LoginStarts(s: State, cfg: Config, request: Request, scope: Scope, lid: Id)
    requires lid !in s.logins && scope in Effective(cfg.defaults, TableOf(s, request.tenant), request.role)
    ensures var t := Step(cfg, s, LoginRead(lid, request.tenant, request.role, {scope}));
            Waits(t, lid, request, scope) && t.writers == s.writers && t.locks == s.locks && t.tables == s.tables
  {
    assert Allowed(cfg, s, request.tenant, request.role, {scope});
  }

  lemma {:induction false} WriterStarts(cfg: Config, es: seq<Event>, request: Request, pid: Pid)
    requires pid !in Run(cfg, es).writers && cfg.lockKey(request.tenant) !in Run(cfg, es).locks
    requires Precheck(request).None?
    ensures var s, t := Run(cfg, es), Run(cfg, es + [Submit(pid, request)] + [Lock(pid)]);
            t.logins == s.logins && InProgress(t, pid, request, TableOf(s, request.tenant), Locked)
  {
    RunMore(cfg, es, Submit(pid, request));
    RunMore(cfg, es + [Submit(pid, request)], Lock(pid));
  }

  lemma {:induction false} BothStart(
      cfg: Config, es: seq<Event>, request: Request, scope: Scope, lid: Id, pid: Pid) returns (more: seq<Event>)
    requires var s := Run(cfg, es);
             && lid !in s.logins && pid !in s.writers && cfg.lockKey(request.tenant) !in s.locks
             && scope in Effective(cfg.defaults, TableOf(s, request.tenant), request.role)
    requires Precheck(request).None?
    ensures es <= more && Waits(Run(cfg, more), lid, request, scope)
    ensures InProgress(Run(cfg, more), pid, request, TableOf(Run(cfg, es), request.tenant), Locked)
  {
    LoginStarts(Run(cfg, es), cfg, request, scope, lid);
    var started := es + [LoginRead(lid, request.tenant, request.role, {scope})];
    RunMore(cfg, es, LoginRead(lid, request.tenant, request.role, {scope}));
    WriterStarts(cfg, started, request, pid);
    more := started + [Submit(pid, request)] + [Lock(pid)];
  }

  lemma {:induction false} ReadsAndWrites(
      cfg: Config, es: seq<Event>, request: Request, before: RoleMap, scope: Scope, lid: Id, pid: Pid)
      returns (more: seq<Event>)
    requires InProgress(Run(cfg, es), pid, request, before, Locked) && Waits(Run(cfg, es), lid, request, scope)
    ensures es <= more && Waits(Run(cfg, more), lid, request, scope)
    ensures InProgress(Run(cfg, more), pid, request, before, Written(before))
  {
    RunMore(cfg, es, Read(pid));
    RunMore(cfg, es + [Read(pid)], Write(pid));
    more := es + [Read(pid)] + [Write(pid)];
  }

  lemma {:induction false} Validates(
      cfg: Config, es: seq<Event>, request: Request, before: RoleMap, scope: Scope, lid: Id, pid: Pid)
      returns (more: seq<Event>)
    requires InProgress(Run(cfg, es), pid, request, before, Written(before)) && Waits(Run(cfg, es), lid, request, scope)
    requires Precheck(request).None? && WriteMapping(cfg.defaults, before, request).Accepted?
    ensures es <= more && Waits(Run(cfg, more), lid, request, scope)
    ensures InProgress(Run(cfg, more), pid, request, before,
                       Validated(before, WriteMapping(cfg.defaults, before, request)))
  {
    RunMore(cfg, es, Validate(pid));
    more := es + [Validate(pid)];
  }

  lemma {:induction false} ValidatesAndRevokes(
      cfg: Config, es: seq<Event>, request: Request, before: RoleMap, scope: Scope, lid: Id, pid: Pid)
      returns (more: seq<Event>, phase: Phase)
    requires InProgress(Run(cfg, es), pid, request, before, Written(before)) && Waits(Run(cfg, es), lid, request, scope)
    requires Precheck(request).None?
    requires var out := WriteMapping(cfg.defaults, before, request); out.Accepted? && out.narrowed
    ensures es <= more && Waits(Run(cfg, more), lid, request, scope)
    ensures phase.Revoked? && phase.outcome == WriteMapping(cfg.defaults, before, request)
    ensures InProgress(Run(cfg, more), pid, request, before, phase)
  {
    more := Validates(cfg, es, request, before, scope, lid, pid);
    RunMore(cfg, more, RevokeGrants(pid));
    more := more + [RevokeGrants(pid)];
    phase := Run(cfg, more).writers[pid].phase;
  }

  lemma {:induction false} CommitsAndSweeps(
      cfg: Config, es: seq<Event>, request: Request, before: RoleMap, phase: Phase, scope: Scope, lid: Id, pid: Pid)
      returns (more: seq<Event>)
    requires InProgress(Run(cfg, es), pid, request, before, phase) && Waits(Run(cfg, es), lid, request, scope)
    requires phase.Revoked? && phase.outcome.Accepted?
    ensures es <= more && Waits(Run(cfg, more), lid, request, scope)
    ensures pid in Run(cfg, more).writers && Run(cfg, more).writers[pid].Finished?
    ensures TableOf(Run(cfg, more), request.tenant) == Apply(before, request)
  {
    RunMore(cfg, es, Commit(pid));
    RunMore(cfg, es + [Commit(pid)], Sweep(pid));
    more := es + [Commit(pid)] + [Sweep(pid)];
  }

  /** The sweep shrinks the window without closing it. Whatever has happened so far, any
      narrowing write that would be accepted now can be outlived: a login that reads a scope
      before the commit and saves after the sweep keeps it once the writer and the login are
      both done. */
  lemma {:induction false} NarrowingCanBeOutlived(
      cfg: Config, es: seq<Event>, request: Request, scope: Scope, lid: Id, pid: Pid) returns (more: seq<Event>)
    requires var s := Run(cfg, es);
             && lid !in s.logins && pid !in s.writers && cfg.lockKey(request.tenant) !in s.locks
             && var before := TableOf(s, request.tenant);
                var out := WriteMapping(cfg.defaults, before, request);
                && out.Accepted? && scope !in STANDARD_OIDC_SCOPES
                && scope in Effective(cfg.defaults, before, request.role) && scope !in Expand(out.scopes)
    ensures es <= more
    ensures var s := Run(cfg, more);
            && pid in s.writers && s.writers[pid].Finished? && lid in s.logins && s.logins[lid].Over?
            && lid in s.grants && s.grants[lid].tenant == request.tenant && s.grants[lid].role == request.role
            && !Inside(cfg, s, request.tenant, request.role, s.grants[lid].scopes)
  {
    var before := TableOf(Run(cfg, es), request.tenant);
    var out := WriteMapping(cfg.defaults, before, request);
    assert scope in Expand(Effective(cfg.defaults, before, request.role)) - Expand(out.scopes);
    AcceptedWrite(cfg.defaults, before, request);
    more := BothStart(cfg, es, request, scope, lid, pid);
    more := WritesWhole(cfg, more, request, before, scope, lid, pid);
    SavesLate(cfg, more, request, scope, lid, pid);
    more := more + [LoginSave(lid)];
  }

  lemma {:induction false} WritesWhole(
      cfg: Config, es: seq<Event>, request: Request, before: RoleMap, scope: Scope, lid: Id, pid: Pid)
      returns (more: seq<Event>)
    requires InProgress(Run(cfg, es), pid, request, before, Locked) && Waits(Run(cfg, es), lid, request, scope)
    requires Precheck(request).None?
    requires var out := WriteMapping(cfg.defaults, before, request); out.Accepted? && out.narrowed
    ensures es <= more && Waits(Run(cfg, more), lid, request, scope)
    ensures pid in Run(cfg, more).writers && Run(cfg, more).writers[pid].Finished?
    ensures TableOf(Run(cfg, more), request.tenant) == Apply(before, request)
  {
    var phase: Phase;
    more := ReadsAndWrites(cfg, es, request, before, scope, lid, pid);
    more, phase := ValidatesAndRevokes(cfg, more, request, before, scope, lid, pid);
    more := CommitsAndSweeps(cfg, more, request, before, phase, scope, lid, pid);
  }

  lemma {:induction false} SavesLate(cfg: Config, es: seq<Event>, request: Request, scope: Scope, lid: Id, pid: Pid)
    requires Waits(Run(cfg, es), lid, request, scope) && scope !in STANDARD_OIDC_SCOPES
    requires pid in Run(cfg, es).writers && Run(cfg, es).writers[pid].Finished?
    requires scope !in Expand(Effective(cfg.defaults, TableOf(Run(cfg, es), request.tenant), request.role))
    ensures var s := Run(cfg, es + [LoginSave(lid)]);
            && pid in s.writers && s.writers[pid].Finished? && lid in s.logins && s.logins[lid].Over?
            && lid in s.grants && s.grants[lid].tenant == request.tenant && s.grants[lid].role == request.role
            && !Inside(cfg, s, request.tenant, request.role, s.grants[lid].scopes)
  {
    RunMore(cfg, es, LoginSave(lid));
    assert scope in {scope} - STANDARD_OIDC_SCOPES;
  }
}
