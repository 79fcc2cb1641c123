/** The tenant lifecycle: a status change enqueues a job in the same transaction, and a worker
    applies the job's cascade to the tenant's clients, connector credentials and connections.
    Jobs are handled in order; an attempt may be cut off between its bulk updates and retried
    any number of times. */
module TenantLifecycle {
  import opened Options

  type Id = nat
  type Time = int

  datatype Status = Active | PendingApproval | Rejected | Suspended | Deactivated

  /** `ALLOWED_STATUS_TRANSITIONS` */
  predicate Allowed(from: Status, to: Status) {
    match from
    case Active => to == Suspended || to == Deactivated
    case Suspended => to == Active || to == Deactivated
    case Deactivated => to == Active
    case _ => false
  }

  datatype Tenant = Tenant(status: Status, deactivatedAt: Option<Time>)

  /** `tagged` stands for the reason `TENANT_DEACTIVATION`. */
  datatype Client = Client(tenantId: Id, revokedAt: Option<Time>, tagged: bool)

  datatype Connector = Connector(tenantId: Id, active: bool)

  datatype ConnectionState = Invited | Requested | Responded | Established | Completed | Abandoned

  datatype Connection = Connection(tenantId: Id, state: ConnectionState)

  datatype Job = Job(tenantId: Id, previous: Status, status: Status)

  // ----- the bulk updates ---------------------------------------------------------------

  function RevokedClient(c: Client, tenantId: Id, now: Time): Client {
    if c.tenantId == tenantId && c.revokedAt.None? then Client(c.tenantId, Some(now), true) else c
  }

  function RestoredClient(c: Client, tenantId: Id): Client {
    if c.tenantId == tenantId && c.tagged then Client(c.tenantId, None, false) else c
  }

  function RevokeAll(clients: map<Id, Client>, tenantId: Id, now: Time): map<Id, Client> {
    map i | i in clients :: RevokedClient(clients[i], tenantId, now)
  }

  function RestoreAll(clients: map<Id, Client>, tenantId: Id): map<Id, Client> {
    map i | i in clients :: RestoredClient(clients[i], tenantId)
  }

  function DeactivateAll(connectors: map<Id, Connector>, tenantId: Id): map<Id, Connector> {
    map i | i in connectors ::
      if connectors[i].tenantId == tenantId then connectors[i].(active := false) else connectors[i]
  }

  function AbandonAll(connections: map<Id, Connection>, tenantId: Id): map<Id, Connection> {
    map i | i in connections ::
      if connections[i].tenantId == tenantId && connections[i].state !in {Completed, Abandoned}
      then connections[i].(state := Abandoned)
      else connections[i]
  }

  /** `OAuthClientService.revokeClient`: a client already revoked, for whatever reason, is left alone. */
  function RevokedForCause(c: Client, now: Time): Client {
    if c.revokedAt.Some? then c else Client(c.tenantId, Some(now), false)
  }

  // ----- the system ---------------------------------------------------------------------

  datatype Part = Clients | Connectors | Connections

  /** The bulk updates a job's handler runs. */
  function Needed(job: Job): set<Part> {
    if job.status == Deactivated then {Clients, Connectors, Connections}
    else if job.previous == Deactivated && job.status == Active then {Clients}
    else {}
  }

  /** `done` holds the bulk updates the current attempt at the first job has run. The three
      `swept` maps only observe: the rows a tenant had when its last deactivation update ran. */
  datatype State = State(
    tenants: map<Id, Tenant>, queue: seq<Job>, done: set<Part>,
    clients: map<Id, Client>, connectors: map<Id, Connector>, connections: map<Id, Connection>,
    swept: map<(Id, Part), set<Id>>)

  datatype Event =
    | CreateTenant(id: Id, byPlatformAdmin: bool)
    | UpdateStatus(id: Id, status: Status, now: Time)
    | Work(part: Part, now: Time)
    | CutOff
    | Complete
    | CreateClient(id: Id, tenantId: Id)
    | RevokeClient(id: Id, now: Time)
    | CreateConnector(id: Id, tenantId: Id)
    | SetConnector(id: Id, active: bool)
    | CreateConnection(id: Id, tenantId: Id, state: ConnectionState)
    | MoveConnection(id: Id, state: ConnectionState)

  function OfTenant(s: State, part: Part, t: Id): set<Id> {
    match part
    case Clients => set i | i in s.clients && s.clients[i].tenantId == t
    case Connectors => set i | i in s.connectors && s.connectors[i].tenantId == t
    case Connections => set i | i in s.connections && s.connections[i].tenantId == t
  }

  function WorkOn(s: State, job: Job, part: Part, now: Time): State {
    var t := job.tenantId;
    var swept := s.swept[(t, part) := OfTenant(s, part, t)];
    match part
    case Clients =>
      if job.status == Deactivated then s.(clients := RevokeAll(s.clients, t, now), swept := swept)
      else s.(clients := RestoreAll(s.clients, t))
    case Connectors => s.(connectors := DeactivateAll(s.connectors, t), swept := swept)
    case Connections => s.(connections := AbandonAll(s.connections, t), swept := swept)
  }

  predicate TenantActive(s: State, t: Id) { t in s.tenants && s.tenants[t].status == Active }

  function CreateStep(s: State, id: Id, byPlatformAdmin: bool): State {
    if id in s.tenants then s
    else s.(tenants := s.tenants[id := Tenant(if byPlatformAdmin then Active else PendingApproval, None)])
  }

  function UpdateStep(s: State, id: Id, status: Status, now: Time): State {
    if id !in s.tenants || !Allowed(s.tenants[id].status, status) then s
    else s.(tenants := s.tenants[id := Tenant(status, if status == Deactivated then Some(now) else None)],
            queue := s.queue + [Job(id, s.tenants[id].status, status)])
  }

  function WorkStep(s: State, part: Part, now: Time): State {
    if s.queue == [] || part !in Needed(s.queue[0]) then s
    else WorkOn(s, s.queue[0], part, now).(done := s.done + {part})
  }

  function CompleteStep(s: State): State {
    if s.queue == [] || !(Needed(s.queue[0]) <= s.done) then s
    else s.(queue := s.queue[1..], done := {})
  }

  /** Requests about single rows. A tenant's connectors and connections change on request only
      while the tenant is active. */
  function RowStep(s: State, e: Event): State {
    match e
    case CreateClient(id, tenantId) =>
      if id in s.clients then s else s.(clients := s.clients[id := Client(tenantId, None, false)])
    case RevokeClient(id, now) =>
      if id !in s.clients then s else s.(clients := s.clients[id := RevokedForCause(s.clients[id], now)])
    case CreateConnector(id, tenantId) =>
      if id in s.connectors then s else s.(connectors := s.connectors[id := Connector(tenantId, true)])
    case SetConnector(id, active) =>
      if id !in s.connectors || !TenantActive(s, s.connectors[id].tenantId) then s
      else s.(connectors := s.connectors[id := s.connectors[id].(active := active)])
    case CreateConnection(id, tenantId, state) =>
      if id in s.connections then s else s.(connections := s.connections[id := Connection(tenantId, state)])
    case MoveConnection(id, state) =>
      if id !in s.connections || !TenantActive(s, s.connections[id].tenantId) then s
      else s.(connections := s.connections[id := s.connections[id].(state := state)])
    case _ => s
  }

  /** One event; one that is not possible in `s` changes nothing. */
  function Step(s: State, e: Event): State {
    match e
    case CreateTenant(id, byPlatformAdmin) => CreateStep(s, id, byPlatformAdmin)
    case UpdateStatus(id, status, now) => UpdateStep(s, id, status, now)
    case Work(part, now) => WorkStep(s, part, now)
    case CutOff => s.(done := {})
    case Complete => CompleteStep(s)
    case _ => RowStep(s, e)
  }

  /** A new tenant awaits approval unless a platform admin created it. */
  lemma {:induction false} CreatedStatus(s: State, id: Id, byPlatformAdmin: bool)
    requires id !in s.tenants
    ensures var n := Step(s, CreateTenant(id, byPlatformAdmin));
            && n == s.(tenants := n.tenants) && n.tenants.Keys == s.tenants.Keys + {id}
            && (n.tenants[id].status == Active <==> byPlatformAdmin)
            && (n.tenants[id].status == PendingApproval <==> !byPlatformAdmin) && n.tenants[id].deactivatedAt.None?
            && forall t :: t in s.tenants ==> n.tenants[t] == s.tenants[t]
  {}

  /** A new client is live and untagged, a new connector active; an id in use is left alone. */
  lemma {:induction false} CreatedRows(s: State, id: Id, t: Id)
    ensures var client, connector := Step(s, CreateClient(id, t)), Step(s, CreateConnector(id, t));
            && client == s.(clients := client.clients) && connector == s.(connectors := connector.connectors)
            && client.clients == (if id in s.clients then s.clients else s.clients[id := Client(t, None, false)])
            && connector.connectors
               == (if id in s.connectors then s.connectors else s.connectors[id := Connector(t, true)])
  {}

  const EMPTY := State(map[], [], {}, map[], map[], map[], map[])

  function RunFrom(s: State, es: seq<Event>): State {
    if es == [] then s else Step(RunFrom(s, es[..|es| - 1]), es[|es| - 1])
  }

  function Run(es: seq<Event>): State { RunFrom(EMPTY, es) }

  // ----- what every run keeps -----------------------------------------------------------

  /** The status a tenant had before the first of its queued jobs: what has been handled so far. */
  function Handled(queue: seq<Job>, t: Id, current: Status): Status {
    if queue == [] then current
    else if queue[0].tenantId == t then queue[0].previous
    else Handled(queue[1..], t, current)
  }

  /** A tenant's queued jobs lead, one allowed change at a time, to its current status. */
  predicate Chained(queue: seq<Job>, t: Id, current: Status) {
    queue == [] ||
    (&& Chained(queue[1..], t, current)
     && (queue[0].tenantId == t ==>
           && Allowed(queue[0].previous, queue[0].status)
           && queue[0].status == Handled(queue[1..], t, current)))
  }

  predicate Mentions(queue: seq<Job>, t: Id) { exists i :: 0 <= i < |queue| && queue[i].tenantId == t }

  lemma {:induction false} Enqueue(queue: seq<Job>, t: Id, current: Status, job: Job)
    requires Chained(queue, t, current)
    requires job.tenantId == t ==> job.previous == current && Allowed(job.previous, job.status)
    ensures var next := if job.tenantId == t then job.status else current;
            && Chained(queue + [job], t, next)
            && Handled(queue + [job], t, next) == Handled(queue, t, current)
  {
    if queue == [] {
      assert [job][1..] == [];
    } else {
      assert (queue + [job])[1..] == queue[1..] + [job];
      Enqueue(queue[1..], t, current, job);
    }
  }

  lemma {:induction false} Unmentioned(queue: seq<Job>, t: Id, current: Status)
    requires !Mentions(queue, t)
    ensures Chained(queue, t, current) && Handled(queue, t, current) == current
  {
    if queue != [] {
      assert queue[0].tenantId != t;
      forall i | 0 <= i < |queue[1..]| ensures queue[1..][i].tenantId != t { assert queue[1..][i] == queue[i + 1]; }
      Unmentioned(queue[1..], t, current);
    }
  }

  function StatusOf(s: State, t: Id): Status { if t in s.tenants then s.tenants[t].status else PendingApproval }

  ghost predicate ChainInv(s: State) { forall t: Id :: Chained(s.queue, t, StatusOf(s, t)) }

  lemma {:induction false} ChainStep(s: State, e: Event)
    requires ChainInv(s)
    ensures ChainInv(Step(s, e))
  {
    var n := Step(s, e);
    forall t: Id ensures Chained(n.queue, t, StatusOf(n, t)) {
      assert Chained(s.queue, t, StatusOf(s, t));
      ChainStepAt(s, e, t);
    }
  }

  lemma {:induction false} ChainStepAt(s: State, e: Event, t: Id)
    requires Chained(s.queue, t, StatusOf(s, t))
    ensures Chained(Step(s, e).queue, t, StatusOf(Step(s, e), t))
  {
    match e
    case UpdateStatus(id, status, now) =>
      if id in s.tenants && Allowed(s.tenants[id].status, status) {
        Enqueue(s.queue, t, StatusOf(s, t), Job(id, s.tenants[id].status, status));
      }
    case CreateTenant(id, byPlatformAdmin) =>
      if id !in s.tenants && t == id {
        NewTenantUnmentioned(s.queue, t, StatusOf(s, t), StatusOf(Step(s, e), t));
      }
    case Work(part, now) => WorkKeepsQueue(s, part, now);
    case CutOff =>
    case Complete =>
    case _ => RequestKeepsQueue(s, e);
  }

  lemma {:induction false} WorkKeepsQueue(s: State, part: Part, now: Time)
    ensures WorkStep(s, part, now).queue == s.queue && WorkStep(s, part, now).tenants == s.tenants
  {}

  lemma {:induction false} RequestKeepsQueue(s: State, e: Event)
    ensures RowStep(s, e).queue == s.queue && RowStep(s, e).tenants == s.tenants
  {}

  /** A tenant without a status of its own has no queued job. */
  lemma {:induction false} NewTenantUnmentioned(queue: seq<Job>, t: Id, current: Status, next: Status)
    requires Chained(queue, t, current) && (current == PendingApproval || current == Rejected)
    ensures !Mentions(queue, t) && Chained(queue, t, next)
  {
    if queue != [] {
      NewTenantUnmentioned(queue[1..], t, current, next);
      Unmentioned(queue[1..], t, current);
      forall i | 0 <= i < |queue| ensures queue[i].tenantId != t {
        if i > 0 { assert queue[i] == queue[1..][i - 1]; }
      }
    }
    Unmentioned(queue, t, next);
  }

  /** The current attempt has only run updates its job needs, a tag always comes with a
      revocation time, and a tenant has a deactivation time exactly while deactivated. */
  ghost predicate TidyInv(s: State) {
    && s.done <= (if s.queue == [] then {} else Needed(s.queue[0]))
    && (forall i :: i in s.clients && s.clients[i].tagged ==> s.clients[i].revokedAt.Some?)
    && (forall t :: t in s.tenants ==> (s.tenants[t].deactivatedAt.Some? <==> s.tenants[t].status == Deactivated))
  }

  lemma {:induction false} TidyStep(s: State, e: Event)
    requires TidyInv(s)
    ensures TidyInv(Step(s, e))
  {
    match e
    case CreateTenant(id, byPlatformAdmin) =>
    case UpdateStatus(id, status, now) => TidyUpdate(s, id, status, now);
    case Work(part, now) => TidyWork(s, part, now);
    case CutOff =>
    case Complete =>
    case _ => TidyRow(s, e);
  }

  lemma {:induction false} TidyUpdate(s: State, id: Id, status: Status, now: Time)
    requires TidyInv(s)
    ensures TidyInv(UpdateStep(s, id, status, now))
  {}

  lemma {:induction false} TidyWork(s: State, part: Part, now: Time)
    requires TidyInv(s)
    ensures TidyInv(WorkStep(s, part, now))
  {}

  lemma {:induction false} TidyRow(s: State, e: Event)
    requires TidyInv(s)
    ensures TidyInv(RowStep(s, e))
  {}

  /** A tagged client's tenant has had its deactivation handled and not yet undone, or is having
      it handled now. A reactivation whose restore has run leaves no tag. */
  ghost predicate TagInv(s: State) {
    forall i :: i in s.clients && s.clients[i].tagged ==> TagExplained(s, s.clients[i].tenantId)
  }

  predicate TagExplained(s: State, t: Id) {
    || (s.queue != [] && s.queue[0].tenantId == t && s.queue[0].status == Deactivated)
    || (Handled(s.queue, t, StatusOf(s, t)) == Deactivated
        && !(s.queue != [] && s.queue[0].tenantId == t && s.done != {}))
  }

  lemma {:induction false} TagStep(s: State, e: Event)
    requires ChainInv(s) && TidyInv(s) && TagInv(s)
    ensures TagInv(Step(s, e))
  {
    var n := Step(s, e);
    forall i | i in n.clients && n.clients[i].tagged ensures TagExplained(n, n.clients[i].tenantId) {
      TagOrigin(s, e, i);
      if i in s.clients && s.clients[i].tagged { TagExplainedStep(s, e, s.clients[i].tenantId, i); }
    }
  }

  /** A client gets its tag from its tenant's deactivation job and from nothing else. */
  lemma {:induction false} TagOrigin(s: State, e: Event, i: Id)
    requires i in Step(s, e).clients && Step(s, e).clients[i].tagged
    ensures var n := Step(s, e);
            var t := n.clients[i].tenantId;
            || (i in s.clients && s.clients[i].tagged && s.clients[i].tenantId == t)
            || (n.queue != [] && n.queue[0].tenantId == t && n.queue[0].status == Deactivated)
  {
    match e
    case Work(part, now) => TagFromWork(s, part, now, i);
    case CreateTenant(_, _) =>
    case UpdateStatus(_, _, _) =>
    case CutOff =>
    case Complete =>
    case _ =>
  }

  lemma {:induction false} TagFromWork(s: State, part: Part, now: Time, i: Id)
    requires i in WorkStep(s, part, now).clients && WorkStep(s, part, now).clients[i].tagged
    ensures var n := WorkStep(s, part, now);
            var t := n.clients[i].tenantId;
            || (i in s.clients && s.clients[i].tagged && s.clients[i].tenantId == t)
            || (n.queue != [] && n.queue[0].tenantId == t && n.queue[0].status == Deactivated)
  {}

  lemma {:induction false} TagExplainedStep(s: State, e: Event, t: Id, i: Id)
    requires Chained(s.queue, t, StatusOf(s, t)) && TidyInv(s) && TagExplained(s, t)
    requires i in s.clients && s.clients[i].tagged && s.clients[i].tenantId == t
    requires i in Step(s, e).clients && Step(s, e).clients[i].tagged
    ensures TagExplained(Step(s, e), t)
  {
    match e
    case UpdateStatus(id, status, now) =>
      if id in s.tenants && Allowed(s.tenants[id].status, status) {
        Enqueue(s.queue, t, StatusOf(s, t), Job(id, s.tenants[id].status, status));
      }
    case CreateTenant(id, byPlatformAdmin) =>
      if id !in s.tenants && t == id {
        NewTenantUnmentioned(s.queue, t, StatusOf(s, t), StatusOf(s, t));
        Unmentioned(s.queue, t, StatusOf(s, t));
      }
    case Complete => TagExplainedComplete(s, t);
    case Work(part, now) => TagExplainedWork(s, part, now, t, i);
    case CutOff =>
    case _ =>
  }

  lemma {:induction false} TagExplainedComplete(s: State, t: Id)
    requires Chained(s.queue, t, StatusOf(s, t)) && TidyInv(s) && TagExplained(s, t)
    ensures TagExplained(CompleteStep(s), t)
  {}

  lemma {:induction false} TagExplainedWork(s: State, part: Part, now: Time, t: Id, i: Id)
    requires TidyInv(s) && TagExplained(s, t) && Chained(s.queue, t, StatusOf(s, t))
    requires i in s.clients && s.clients[i].tagged && s.clients[i].tenantId == t
    requires i in WorkStep(s, part, now).clients && WorkStep(s, part, now).clients[i].tagged
    ensures TagExplained(WorkStep(s, part, now), t)
  {}

  // ----- what a drained queue means -----------------------------------------------------

  predicate Dead(s: State, part: Part, i: Id) {
    match part
    case Clients => i in s.clients ==> s.clients[i].revokedAt.Some?
    case Connectors => i in s.connectors ==> !s.connectors[i].active
    case Connections => i in s.connections ==> s.connections[i].state in {Completed, Abandoned}
  }

  /** The tenant's deactivation has been handled, at least as far as `part`. */
  ghost predicate Covered(s: State, t: Id, part: Part) {
    && t in s.tenants && s.tenants[t].status == Deactivated
    && (if s.queue != [] && s.queue[0].tenantId == t then !Mentions(s.queue[1..], t) && part in s.done
        else !Mentions(s.queue, t))
  }

  ghost predicate SweepInv(s: State) {
    forall t: Id, part: Part :: Covered(s, t, part) ==> SweptDead(s, t, part)
  }

  predicate SweptDead(s: State, t: Id, part: Part) {
    && (t, part) in s.swept
    && forall i :: i in s.swept[(t, part)] ==> i in OfTenant(s, part, t) && Dead(s, part, i)
  }

  lemma {:induction false} SweepStep(s: State, e: Event)
    requires ChainInv(s) && TidyInv(s) && SweepInv(s)
    ensures SweepInv(Step(s, e))
  {
    forall t: Id, part: Part | Covered(Step(s, e), t, part) ensures SweptDead(Step(s, e), t, part) {
      assert Chained(s.queue, t, StatusOf(s, t));
      if !(e.Work? && s.queue != [] && s.queue[0].tenantId == t && e.part == part) {
        CoveredBefore(s, e, t, part);
        SweptStaysDead(s, e, t, part);
      } else {
        SweepRuns(s, e, t, part);
      }
    }
  }

  /** The first job of a deactivated tenant with no other job queued is its deactivation. */
  lemma {:induction false} OnlyJobDeactivates(s: State, t: Id)
    requires Chained(s.queue, t, StatusOf(s, t)) && StatusOf(s, t) == Deactivated
    requires s.queue != [] && s.queue[0].tenantId == t && !Mentions(s.queue[1..], t)
    ensures s.queue[0].status == Deactivated
  {
    Unmentioned(s.queue[1..], t, Deactivated);
  }

  lemma {:induction false} SweepRuns(s: State, e: Event, t: Id, part: Part)
    requires Chained(s.queue, t, StatusOf(s, t)) && Covered(Step(s, e), t, part)
    requires e.Work? && e.part == part && s.queue != [] && s.queue[0].tenantId == t
    ensures SweptDead(Step(s, e), t, part)
  {
    OnlyJobDeactivates(s, t);
  }

  lemma {:induction false} CoveredBefore(s: State, e: Event, t: Id, part: Part)
    requires Chained(s.queue, t, StatusOf(s, t)) && TidyInv(s) && Covered(Step(s, e), t, part)
    requires !(e.Work? && s.queue != [] && s.queue[0].tenantId == t && e.part == part)
    ensures Covered(s, t, part)
  {
    match e
    case UpdateStatus(id, status, now) =>
      if id in s.tenants && Allowed(s.tenants[id].status, status) { CoveredBeforeUpdate(s, e, t, part); }
    case Complete =>
      if s.queue != [] && Needed(s.queue[0]) <= s.done { CoveredBeforeComplete(s, t, part); }
    case _ =>
  }

  lemma {:induction false} MentionsMore(queue: seq<Job>, job: Job, t: Id)
    ensures Mentions(queue + [job], t) <==> Mentions(queue, t) || job.tenantId == t
  {
    assert (queue + [job])[|queue|] == job;
    assert forall i :: 0 <= i < |queue| ==> (queue + [job])[i] == queue[i];
  }

  lemma {:induction false} CoveredBeforeUpdate(s: State, e: Event, t: Id, part: Part)
    requires TidyInv(s) && Covered(Step(s, e), t, part)
    requires e.UpdateStatus? && e.id in s.tenants && Allowed(s.tenants[e.id].status, e.status)
    ensures Covered(s, t, part)
  {
    var job := Job(e.id, s.tenants[e.id].status, e.status);
    MentionsMore(s.queue, job, t);
    if s.queue != [] {
      assert (s.queue + [job])[1..] == s.queue[1..] + [job];
      MentionsMore(s.queue[1..], job, t);
    }
  }

  lemma {:induction false} CoveredBeforeComplete(s: State, t: Id, part: Part)
    requires Chained(s.queue, t, StatusOf(s, t)) && Covered(Step(s, Complete), t, part)
    requires s.queue != [] && Needed(s.queue[0]) <= s.done
    ensures Covered(s, t, part)
  {
    assert !Mentions(s.queue[1..], t);
    if s.queue[0].tenantId == t {
      OnlyJobDeactivates(s, t);
    } else {
      forall i | 0 <= i < |s.queue| ensures s.queue[i].tenantId != t {
        if i > 0 { assert s.queue[i] == s.queue[1..][i - 1]; }
      }
    }
  }

  lemma {:induction false} SweptStaysDead(s: State, e: Event, t: Id, part: Part)
    requires Chained(s.queue, t, StatusOf(s, t)) && Covered(s, t, part) && SweptDead(s, t, part)
    requires !(e.Work? && s.queue != [] && s.queue[0].tenantId == t && e.part == part)
    ensures SweptDead(Step(s, e), t, part)
  {
    SweptUntouched(s, e, t, part);
    forall i | i in s.swept[(t, part)] ensures i in OfTenant(Step(s, e), part, t) && Dead(Step(s, e), part, i) {
      assert i in OfTenant(s, part, t) && Dead(s, part, i);
      StaysDead(s, e, t, part, i);
    }
  }

  lemma {:induction false} SweptUntouched(s: State, e: Event, t: Id, part: Part)
    requires (t, part) in s.swept && !(e.Work? && s.queue != [] && s.queue[0].tenantId == t && e.part == part)
    ensures (t, part) in Step(s, e).swept && Step(s, e).swept[(t, part)] == s.swept[(t, part)]
  {
    match e
    case Work(other, now) => WorkSweeps(s, other, now, t, part);
    case CreateTenant(_, _) =>
    case UpdateStatus(_, _, _) =>
    case CutOff =>
    case Complete =>
    case _ =>
  }

  lemma {:induction false} WorkSweeps(s: State, other: Part, now: Time, t: Id, part: Part)
    requires (t, part) in s.swept && !(s.queue != [] && s.queue[0].tenantId == t && other == part)
    ensures var n := WorkStep(s, other, now); (t, part) in n.swept && n.swept[(t, part)] == s.swept[(t, part)]
  {}

  lemma {:induction false} RowStays(s: State, e: Event, t: Id, part: Part, i: Id)
    requires i in OfTenant(s, part, t)
    ensures i in OfTenant(Step(s, e), part, t)
  {
    match e
    case Work(other, now) => RowStaysThroughWork(s, other, now, t, part, i);
    case CreateTenant(_, _) =>
    case UpdateStatus(_, _, _) =>
    case CutOff =>
    case Complete =>
    case _ =>
  }

  lemma {:induction false} RowStaysThroughWork(s: State, other: Part, now: Time, t: Id, part: Part, i: Id)
    requires i in OfTenant(s, part, t)
    ensures i in OfTenant(WorkStep(s, other, now), part, t)
  {}

  lemma {:induction false} StaysDead(s: State, e: Event, t: Id, part: Part, i: Id)
    requires Chained(s.queue, t, StatusOf(s, t)) && Covered(s, t, part)
    requires i in OfTenant(s, part, t) && Dead(s, part, i)
    requires !(e.Work? && s.queue != [] && s.queue[0].tenantId == t && e.part == part)
    ensures i in OfTenant(Step(s, e), part, t) && Dead(Step(s, e), part, i)
  {
    match e
    case Work(other, now) => DeadAfterWork(s, other, now, t, part, i);
    case CreateTenant(_, _) =>
    case UpdateStatus(_, _, _) =>
    case CutOff =>
    case Complete =>
    case _ => DeadAfterRequest(s, e, t, part, i);
  }

  lemma {:induction false} DeadAfterWork(s: State, other: Part, now: Time, t: Id, part: Part, i: Id)
    requires Chained(s.queue, t, StatusOf(s, t)) && Covered(s, t, part)
    requires i in OfTenant(s, part, t) && Dead(s, part, i)
    requires !(s.queue != [] && s.queue[0].tenantId == t && other == part)
    ensures i in OfTenant(WorkStep(s, other, now), part, t) && Dead(WorkStep(s, other, now), part, i)
  {}

  lemma {:induction false} DeadAfterRequest(s: State, e: Event, t: Id, part: Part, i: Id)
    requires t in s.tenants && s.tenants[t].status == Deactivated
    requires i in OfTenant(s, part, t) && Dead(s, part, i)
    ensures i in OfTenant(RowStep(s, e), part, t) && Dead(RowStep(s, e), part, i)
  {}

  // ----- every run ----------------------------------------------------------------------

  lemma {:induction false} RunKeeps(es: seq<Event>)
    ensures ChainInv(Run(es)) && TidyInv(Run(es)) && TagInv(Run(es)) && SweepInv(Run(es))
  {
    if es != [] {
      var s, e := Run(es[..|es| - 1]), es[|es| - 1];
      RunKeeps(es[..|es| - 1]);
      ChainStep(s, e);
      TidyStep(s, e);
      TagStep(s, e);
      SweepStep(s, e);
    }
  }

  /** Once the queue is drained, a deactivated tenant has no live client, no active connector
      and no open connection among those it had when its last job ran, and a tenant in any other
      status has no client tagged as bulk-revoked. */
  lemma {:induction false} DrainedQueue(es: seq<Event>, t: Id)
    requires Run(es).queue == [] && t in Run(es).tenants
    ensures var s := Run(es);
            if s.tenants[t].status == Deactivated
            then forall part: Part :: SweptDead(s, t, part)
            else forall i :: i in s.clients && s.clients[i].tenantId == t ==> !s.clients[i].tagged
  {
    RunKeeps(es);
    var s := Run(es);
    if s.tenants[t].status == Deactivated {
      forall part: Part ensures SweptDead(s, t, part) { assert Covered(s, t, part); }
    } else {
      forall i | i in s.clients && s.clients[i].tenantId == t ensures !s.clients[i].tagged {
        assert s.clients[i].tagged ==> TagExplained(s, t);
      }
    }
  }

  /** A row of the tenant that was there before the update of its deactivation ran. */
  ghost predicate Caught(s: State, t: Id, part: Part, i: Id) {
    && i in OfTenant(s, part, t)
    && (Covered(s, t, part) ==> (t, part) in s.swept && i in s.swept[(t, part)])
  }

  lemma {:induction false} CaughtStep(s: State, e: Event, t: Id, part: Part, i: Id)
    requires ChainInv(s) && TidyInv(s) && Caught(s, t, part, i)
    ensures Caught(Step(s, e), t, part, i)
  {
    RowStays(s, e, t, part, i);
    if Covered(Step(s, e), t, part) {
      assert Chained(s.queue, t, StatusOf(s, t));
      if e.Work? && s.queue != [] && s.queue[0].tenantId == t && e.part == part {
        OnlyJobDeactivates(s, t);
      } else {
        CoveredBefore(s, e, t, part);
        SweptUntouched(s, e, t, part);
      }
    }
  }

  lemma {:induction false} CaughtRun(before: seq<Event>, es: seq<Event>, t: Id, part: Part, i: Id)
    requires Caught(Run(before), t, part, i)
    ensures Caught(Run(before + es), t, part, i)
    decreases |es|
  {
    if es == [] {
      assert before + es == before;
    } else {
      var n := |es| - 1;
      CaughtRun(before, es[..n], t, part, i);
      CaughtMore(before + es[..n], es[n], t, part, i);
      assert before + es[..n] + [es[n]] == before + es;
    }
  }

  lemma {:induction false} CaughtMore(es: seq<Event>, e: Event, t: Id, part: Part, i: Id)
    requires Caught(Run(es), t, part, i)
    ensures Caught(Run(es + [e]), t, part, i)
  {
    RunKeeps(es);
    CaughtStep(Run(es), e, t, part, i);
    RunOne(EMPTY, es, e);
  }

  /** Whatever a tenant owned at any moment when it was not deactivated is dead once it is
      deactivated and the queue is drained: its clients are revoked, its connectors inactive, its
      connections completed or abandoned. */
  lemma {:induction false} NothingEscapes(before: seq<Event>, es: seq<Event>, t: Id, part: Part, i: Id)
    requires i in OfTenant(Run(before), part, t) && StatusOf(Run(before), t) != Deactivated
    requires Run(before + es).queue == [] && StatusOf(Run(before + es), t) == Deactivated
    ensures i in OfTenant(Run(before + es), part, t) && Dead(Run(before + es), part, i)
  {
    CaughtRun(before, es, t, part, i);
    DrainedQueue(before + es, t);
    assert Covered(Run(before + es), t, part) && SweptDead(Run(before + es), t, part);
  }

  predicate RevokedOnItsOwn(c: Client) { c.revokedAt.Some? && !c.tagged }

  lemma {:induction false} RevokedOnItsOwnStep(s: State, e: Event, i: Id)
    requires i in s.clients && RevokedOnItsOwn(s.clients[i])
    ensures i in Step(s, e).clients && Step(s, e).clients[i] == s.clients[i]
  {}

  /** A client revoked on its own while live stays revoked, with the same time and no tag,
      through every further event. */
  lemma {:induction false} RevokedOnItsOwnStays(s: State, es: seq<Event>, i: Id)
    requires i in s.clients && RevokedOnItsOwn(s.clients[i])
    ensures i in RunFrom(s, es).clients && RunFrom(s, es).clients[i] == s.clients[i]
  {
    if es != [] {
      var before := es[..|es| - 1];
      RevokedOnItsOwnStays(s, before, i);
      RevokedOnItsOwnStep(RunFrom(s, before), es[|es| - 1], i);
    }
  }

  // ----- one client through deactivations and reactivations -----------------------------

  predicate ForCause(e: Event, i: Id) { e.RevokeClient? && e.id == i }

  /** The client is as `original`, or was live then and is bulk-revoked now. */
  predicate RestorableTo(c: Client, original: Client) {
    c == original || (original == Client(c.tenantId, None, false) && c.tagged)
  }

  lemma {:induction false} RestorableStep(s: State, e: Event, i: Id, original: Client)
    requires i in s.clients && !original.tagged && RestorableTo(s.clients[i], original) && !ForCause(e, i)
    ensures i in Step(s, e).clients && RestorableTo(Step(s, e).clients[i], original)
  {
    match e
    case Work(part, now) => RestorableWork(s, part, now, i, original);
    case CreateTenant(_, _) =>
    case UpdateStatus(_, _, _) =>
    case CutOff =>
    case Complete =>
    case _ =>
  }

  lemma {:induction false} RestorableWork(s: State, part: Part, now: Time, i: Id, original: Client)
    requires i in s.clients && !original.tagged && RestorableTo(s.clients[i], original)
    ensures i in WorkStep(s, part, now).clients && RestorableTo(WorkStep(s, part, now).clients[i], original)
  {}

  lemma {:induction false} RestorableFrom(s: State, es: seq<Event>, i: Id, original: Client)
    requires i in s.clients && !original.tagged && RestorableTo(s.clients[i], original)
    requires forall j :: 0 <= j < |es| ==> !ForCause(es[j], i)
    ensures i in RunFrom(s, es).clients && RestorableTo(RunFrom(s, es).clients[i], original)
  {
    if es != [] {
      var n := |es| - 1;
      RestorableFrom(s, es[..n], i, original);
      RestorableStep(RunFrom(s, es[..n]), es[n], i, original);
    }
  }

  lemma {:induction false} RestorableRun(before: seq<Event>, es: seq<Event>, i: Id, original: Client)
    requires i in Run(before).clients && !original.tagged && RestorableTo(Run(before).clients[i], original)
    requires forall j :: 0 <= j < |es| ==> !ForCause(es[j], i)
    ensures i in Run(before + es).clients && RestorableTo(Run(before + es).clients[i], original)
  {
    RestorableFrom(Run(before), es, i, original);
    RunJoin(EMPTY, before, es);
  }

  /** The queue is drained and the tenant is not deactivated. */
  predicate Settled(s: State, t: Id) { s.queue == [] && StatusOf(s, t) != Deactivated }

  lemma {:induction false} SettledUntagged(es: seq<Event>, i: Id)
    requires i in Run(es).clients && Settled(Run(es), Run(es).clients[i].tenantId)
    ensures !Run(es).clients[i].tagged
  {
    RunKeeps(es);
    assert Run(es).clients[i].tagged ==> TagExplained(Run(es), Run(es).clients[i].tenantId);
  }

  /** Any number of deactivations and reactivations of a tenant, with other tenants' jobs, cut-offs
      and retries between, gives each of its clients back exactly its earlier revocation fields
      once the queue is drained and the tenant is not deactivated, as it was at the outset. */
  lemma {:induction false} DeactivateThenReactivate(before: seq<Event>, es: seq<Event>, t: Id, i: Id)
    requires i in Run(before).clients && Run(before).clients[i].tenantId == t
    requires Settled(Run(before), t) && Settled(Run(before + es), t)
    requires forall j :: 0 <= j < |es| ==> !ForCause(es[j], i)
    ensures i in Run(before + es).clients && Run(before + es).clients[i] == Run(before).clients[i]
  {
    SettledUntagged(before, i);
    RestorableRun(before, es, i, Run(before).clients[i]);
    SettledUntagged(before + es, i);
  }

  /** A for-cause revocation, once the queue is drained and the tenant is not deactivated, has
      survived if and only if the client was not bulk-revoked when it was asked for: that call
      returns early and leaves the tag, although revoking for cause is meant to clear it. */
  lemma {:induction false} ForCauseSurvives(before: seq<Event>, i: Id, now: Time, es: seq<Event>)
    requires i in Run(before).clients
    requires forall j :: 0 <= j < |es| ==> !ForCause(es[j], i)
    requires Settled(Run(before + [RevokeClient(i, now)] + es), Run(before).clients[i].tenantId)
    ensures var c, end := Run(before).clients[i], Run(before + [RevokeClient(i, now)] + es);
            && i in end.clients && (end.clients[i].revokedAt.Some? <==> !c.tagged)
            && (!c.tagged ==> end.clients[i] == RevokedForCause(c, now))
  {
    var c, asked := Run(before).clients[i], before + [RevokeClient(i, now)];
    RunKeeps(before);
    RunOne(EMPTY, before, RevokeClient(i, now));
    var original := if c.tagged then Client(c.tenantId, None, false) else RevokedForCause(c, now);
    RestorableRun(asked, es, i, original);
    SettledUntagged(asked + es, i);
  }

  lemma {:induction false} RunJoin(s: State, a: seq<Event>, b: seq<Event>)
    ensures RunFrom(s, a + b) == RunFrom(RunFrom(s, a), b)
    decreases |b|
  {
    if b == [] {
      assert a + b == a;
    } else {
      var n := |b| - 1;
      RunJoin(s, a, b[..n]);
      assert (a + b)[..|a| + n] == a + b[..n];
    }
  }

  /** Tenant 0 has the status and the one client there is, and nothing is queued. */
  predicate OneClient(s: State, client: Client, status: Status) {
    && s.clients == map[0 := client] && client.tenantId == 0 && s.queue == [] && s.done == {}
    && 0 in s.tenants && s.tenants[0].status == status
  }

  lemma {:induction false} StatusHandled(es: seq<Event>, client: Client, from: Status, to: Status)
    returns (more: seq<Event>)
    requires OneClient(Run(es), client, from) && Allowed(from, to)
    requires to == Deactivated || (from == Deactivated && to == Active)
    ensures more == es + [UpdateStatus(0, to, 0)] + HandlerEvents(1)
    ensures var after := if to == Deactivated then RevokedClient(client, 0, 1) else RestoredClient(client, 0);
            OneClient(Run(more), after, to)
  {
    var update := UpdateStatus(0, to, 0);
    more := es + [update] + HandlerEvents(1);
    RunOne(EMPTY, es, update);
    HandlerRun(Run(es + [update]), 1);
    RunJoin(EMPTY, es + [update], HandlerEvents(1));
    assert [Job(0, from, to)][1..] == [];
  }

  /** A for-cause revocation that does not survive: the client is bulk-revoked when it is asked
      for, and live again once its tenant has been reactivated. */
  lemma {:induction false} ForCauseUndone() returns (before: seq<Event>, es: seq<Event>)
    ensures 0 in Run(before).clients && Run(before).clients[0].tagged
    ensures var end := Run(before + [RevokeClient(0, 0)] + es);
            OneClient(end, Client(0, None, false), Active)
  {
    RunOne(EMPTY, [], CreateTenant(0, true));
    RunOne(EMPTY, [] + [CreateTenant(0, true)], CreateClient(0, 0));
    before := [] + [CreateTenant(0, true)] + [CreateClient(0, 0)];
    assert OneClient(Run(before), Client(0, None, false), Active);
    before := StatusHandled(before, Client(0, None, false), Active, Deactivated);
    var client, asked := Client(0, Some(1), true), before + [RevokeClient(0, 0)];
    RunOne(EMPTY, before, RevokeClient(0, 0));
    assert map[0 := client][0 := client] == map[0 := client];
    var all := StatusHandled(asked, client, Deactivated, Active);
    es := [UpdateStatus(0, Active, 0)] + HandlerEvents(1);
    assert all == asked + es;
  }

  // ----- the service and the worker -----------------------------------------------------

  datatype Result = Ok | NotFound | Conflict

  /** What the handler does; an update its job does not need changes nothing. */
  function HandlerEvents(now: Time): seq<Event> {
    [Work(Clients, now)] + [Work(Connectors, now)] + [Work(Connections, now)] + [Complete]
  }

  /** The tables a whole job leaves: all three of its tenant's updated by a deactivation, the
      clients restored by a reactivation, nothing touched by any other change. */
  ghost predicate HandledJob(s: State, now: Time, n: State)
    requires s.queue != []
  {
    var job := s.queue[0];
    && n.tenants == s.tenants && n.queue == s.queue[1..] && n.done == {}
    && n.clients == (if job.status == Deactivated then RevokeAll(s.clients, job.tenantId, now)
                     else if job.previous == Deactivated && job.status == Active
                     then RestoreAll(s.clients, job.tenantId)
                     else s.clients)
    && n.connectors == (if job.status == Deactivated then DeactivateAll(s.connectors, job.tenantId) else s.connectors)
    && n.connections == (if job.status == Deactivated then AbandonAll(s.connections, job.tenantId) else s.connections)
  }

  /** One update of a deactivation changes its own table alone. */
  lemma {:induction false} DeactivationWork(s: State, part: Part, now: Time)
    requires s.queue != [] && s.queue[0].status == Deactivated
    ensures var t, n := s.queue[0].tenantId, WorkStep(s, part, now);
            && n.tenants == s.tenants && n.queue == s.queue && n.done == s.done + {part}
            && n.clients == (if part == Clients then RevokeAll(s.clients, t, now) else s.clients)
            && n.connectors == (if part == Connectors then DeactivateAll(s.connectors, t) else s.connectors)
            && n.connections == (if part == Connections then AbandonAll(s.connections, t) else s.connections)
  {}

  lemma {:induction false} HandlerSteps(s: State, now: Time)
    requires s.queue != [] && s.done == {}
    ensures HandledJob(s, now,
              CompleteStep(WorkStep(WorkStep(WorkStep(s, Clients, now), Connectors, now), Connections, now)))
  {
    var a := WorkStep(s, Clients, now);
    var b := WorkStep(a, Connectors, now);
    if s.queue[0].status == Deactivated {
      DeactivationWork(s, Clients, now);
      DeactivationWork(a, Connectors, now);
      DeactivationWork(b, Connections, now);
      AllDone(s, WorkStep(b, Connections, now), now);
    } else {
      OtherJob(s, now);
    }
  }

  lemma {:induction false} AllDone(s: State, c: State, now: Time)
    requires s.queue != [] && s.queue[0].status == Deactivated && c.queue == s.queue && c.tenants == s.tenants
    requires Clients in c.done && Connectors in c.done && Connections in c.done
    requires c.clients == RevokeAll(s.clients, s.queue[0].tenantId, now)
    requires c.connectors == DeactivateAll(s.connectors, s.queue[0].tenantId)
    requires c.connections == AbandonAll(s.connections, s.queue[0].tenantId)
    ensures HandledJob(s, now, CompleteStep(c))
  {}

  lemma {:induction false} OtherJob(s: State, now: Time)
    requires s.queue != [] && s.done == {} && s.queue[0].status != Deactivated
    ensures HandledJob(s, now,
              CompleteStep(WorkStep(WorkStep(WorkStep(s, Clients, now), Connectors, now), Connections, now)))
  {
    var a := WorkStep(s, Clients, now);
    assert a.queue == s.queue && Needed(s.queue[0]) <= {Clients};
    assert WorkStep(a, Connectors, now) == a && WorkStep(a, Connections, now) == a;
  }

  lemma {:induction false} HandlerRun(s: State, now: Time)
    requires s.queue != [] && s.done == {}
    ensures HandledJob(s, now, RunFrom(s, HandlerEvents(now)))
  {
    var a, b, c := [Work(Clients, now)], [Work(Connectors, now)], [Work(Connections, now)];
    RunOne(s, [], Work(Clients, now));
    RunOne(s, a, Work(Connectors, now));
    RunOne(s, a + b, Work(Connections, now));
    RunOne(s, a + b + c, Complete);
    assert [] + a == a;
    HandlerSteps(s, now);
  }

  /** What a whole job does, row by row. Rows of other tenants stay as they were, whatever the
      job. A deactivation revokes and tags the tenant's live clients, makes its connectors
      inactive and abandons its connections that are neither completed nor abandoned; a
      reactivation makes its tagged clients live again; nothing else changes. */
  ghost predicate HandledRows(s: State, now: Time, n: State)
    requires s.queue != []
  {
    var job := s.queue[0];
    var t := job.tenantId;
    var reactivated := job.previous == Deactivated && job.status == Active;
    && n.tenants == s.tenants && n.queue == s.queue[1..]
    && n.clients.Keys == s.clients.Keys && n.connectors.Keys == s.connectors.Keys
    && n.connections.Keys == s.connections.Keys
    && (forall i :: i in s.clients ==>
          var c := s.clients[i];
          n.clients[i] == if c.tenantId == t && job.status == Deactivated && c.revokedAt.None?
                          then Client(t, Some(now), true)
                          else if c.tenantId == t && reactivated && c.tagged then Client(t, None, false)
                          else c)
    && (forall i :: i in s.connectors ==>
          var c := s.connectors[i];
          n.connectors[i] == if c.tenantId == t && job.status == Deactivated then Connector(t, false) else c)
    && (forall i :: i in s.connections ==>
          var c := s.connections[i];
          n.connections[i] == if c.tenantId == t && job.status == Deactivated
                                 && c.state != Completed && c.state != Abandoned
                              then Connection(t, Abandoned)
                              else c)
  }

  lemma {:induction false} HandledRowByRow(s: State, now: Time)
    requires s.queue != [] && s.done == {}
    ensures HandledRows(s, now, RunFrom(s, HandlerEvents(now)))
  {
    HandlerRun(s, now);
    RowsFromTables(s, now, RunFrom(s, HandlerEvents(now)));
  }

  lemma {:induction false} RowsFromTables(s: State, now: Time, n: State)
    requires s.queue != [] && HandledJob(s, now, n)
    ensures HandledRows(s, now, n)
  {}

  // ----- a tenant no handled job names --------------------------------------------------

  /** The request is about that row. */
  predicate AsksFor(e: Event, part: Part, i: Id) {
    match part
    case Clients => e.RevokeClient? && e.id == i
    case Connectors => e.SetConnector? && e.id == i
    case Connections => e.MoveConnection? && e.id == i
  }

  /** The row is there in both states, and the same. */
  predicate SameRow(s: State, n: State, part: Part, i: Id) {
    match part
    case Clients => i in s.clients && i in n.clients && n.clients[i] == s.clients[i]
    case Connectors => i in s.connectors && i in n.connectors && n.connectors[i] == s.connectors[i]
    case Connections => i in s.connections && i in n.connections && n.connections[i] == s.connections[i]
  }

  lemma {:induction false} OthersWork(s: State, part: Part, now: Time, t: Id, mine: Part, i: Id)
    requires i in OfTenant(s, mine, t) && (s.queue != [] ==> s.queue[0].tenantId != t)
    ensures SameRow(s, WorkStep(s, part, now), mine, i)
  {}

  lemma {:induction false} UnnamedStep(s: State, e: Event, t: Id, part: Part, i: Id)
    requires i in OfTenant(s, part, t) && !AsksFor(e, part, i)
    requires e.Work? && s.queue != [] ==> s.queue[0].tenantId != t
    ensures SameRow(s, Step(s, e), part, i) && i in OfTenant(Step(s, e), part, t)
  {
    match e
    case Work(other, now) => OthersWork(s, other, now, t, part, i);
    case CreateTenant(_, _) =>
    case UpdateStatus(_, _, _) =>
    case CutOff =>
    case Complete =>
    case _ =>
  }

  /** No bulk update of the run is for a job of the tenant. */
  ghost predicate NoJobNames(s: State, es: seq<Event>, t: Id) {
    forall j :: 0 <= j < |es| && es[j].Work? && RunFrom(s, es[..j]).queue != [] ==>
      RunFrom(s, es[..j]).queue[0].tenantId != t
  }

  /** A tenant whose jobs are not worked on keeps its clients, connectors and connections through
      every run, whatever other tenants' jobs do, but for requests about those rows themselves. */
  lemma {:induction false} UnnamedTenantUntouched(s: State, es: seq<Event>, t: Id, part: Part, i: Id)
    requires i in OfTenant(s, part, t) && NoJobNames(s, es, t)
    requires forall j :: 0 <= j < |es| ==> !AsksFor(es[j], part, i)
    ensures SameRow(s, RunFrom(s, es), part, i) && i in OfTenant(RunFrom(s, es), part, t)
  {
    if es != [] {
      var n := |es| - 1;
      assert NoJobNames(s, es[..n], t) by {
        forall j | 0 <= j < n && es[..n][j].Work? && RunFrom(s, es[..n][..j]).queue != []
          ensures RunFrom(s, es[..n][..j]).queue[0].tenantId != t
        {
          assert es[..n][..j] == es[..j];
        }
      }
      UnnamedTenantUntouched(s, es[..n], t, part, i);
      UnnamedStep(RunFrom(s, es[..n]), es[n], t, part, i);
    }
  }

  lemma {:induction false} RunOne(s: State, es: seq<Event>, e: Event)
    ensures RunFrom(s, es + [e]) == Step(RunFrom(s, es), e)
  {
    assert (es + [e])[..|es|] == es;
  }

  class Lifecycle {
    var tenants: map<Id, Tenant>
    var queue: seq<Job>
    var clients: map<Id, Client>
    var connectors: map<Id, Connector>
    var connections: map<Id, Connection>

    ghost var swept: map<(Id, Part), set<Id>>

    ghost function View(): State
      reads this
    {
      State(tenants, queue, {}, clients, connectors, connections, swept)
    }

    method UpdateStatus(id: Id, status: Status, now: Time) returns (r: Result)
      modifies this`tenants, this`queue
      ensures View() == Step(old(View()), Event.UpdateStatus(id, status, now))
      ensures r == if id !in old(tenants) then NotFound
                   else if Allowed(old(tenants)[id].status, status) then Ok else Conflict
      ensures r == Ok <==>
        && id in old(tenants)
        && (old(tenants)[id].status, status) in {
             (Active, Suspended), (Active, Deactivated), (Suspended, Active), (Suspended, Deactivated),
             (Deactivated, Active)}
      ensures r != Ok ==> tenants == old(tenants) && queue == old(queue)
      ensures r == Ok ==>
        && tenants == old(tenants)[id := Tenant(status, if status == Deactivated then Some(now) else None)]
        && queue == old(queue) + [Job(id, old(tenants)[id].status, status)]
    {
      if id !in tenants {
        return NotFound;
      }
      var previous := tenants[id].status;
      if !Allowed(previous, status) {
        return Conflict;
      }
      tenants := tenants[id := Tenant(status, if status == Deactivated then Some(now) else None)];
      queue := queue + [Job(id, previous, status)];
      r := Ok;
    }

    method RevokeClient(tenantId: Id, id: Id, now: Time) returns (r: Result)
      modifies this`clients
      ensures r == if id in old(clients) && old(clients)[id].tenantId == tenantId then Ok else NotFound
      ensures View() == if r == Ok then Step(old(View()), Event.RevokeClient(id, now)) else old(View())
      ensures r == Ok ==> clients == (if old(clients)[id].revokedAt.Some? then old(clients)
                                      else old(clients)[id := Client(tenantId, Some(now), false)])
    {
      if id !in clients || clients[id].tenantId != tenantId {
        return NotFound;
      }
      if clients[id].revokedAt.None? {
        clients := clients[id := Client(tenantId, Some(now), false)];
      }
      r := Ok;
    }

    /** A job handled to the end is a run of its bulk updates and then its completion. */
    method Handle(now: Time)
      requires queue != []
      modifies this`queue, this`clients, this`connectors, this`connections, this`swept
      ensures View() == RunFrom(old(View()), HandlerEvents(now))
      ensures HandledRows(old(View()), now, View())
    {
      var job := queue[0];
      HandlerRun(View(), now);
      HandledRowByRow(View(), now);
      swept := RunFrom(View(), HandlerEvents(now)).swept;
      if job.status == Deactivated {
        clients := RevokeAll(clients, job.tenantId, now);
        connectors := DeactivateAll(connectors, job.tenantId);
        connections := AbandonAll(connections, job.tenantId);
      } else if job.previous == Deactivated && job.status == Active {
        clients := RestoreAll(clients, job.tenantId);
      }
      queue := queue[1..];
    }
  }
}
