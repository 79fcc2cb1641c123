/** Operation expiry: the rule that turns an operation's state, creation time and first view
    into its expiry, the service operations that keep the stored expiry equal to it, and the
    single-shot first-view stamp under concurrent polls and a purge. */
module Operations {
  import opened Options

  datatype Result<T> = Ok(value: T) | NotFound

  type Time = int
  type Id = nat

  datatype OperationState = Pending | Processing | Completed | Failed

  datatype TtlKey = CompletedViewed | CompletedUnviewed | FailedViewed | FailedUnviewed | PendingStale

  /** A value under `tenant.config.operation_ttl`: a whole number of milliseconds, or text that
      is no duration. */
  datatype RawTtl = Millis(ms: int) | Unreadable

  type Overrides = map<TtlKey, RawTtl>

  const HOUR := 60 * 60 * 1000

  const DEFAULT_CREATED_TTL := 72 * HOUR

  const TTL_KEYS := [CompletedViewed, CompletedUnviewed, FailedViewed, FailedUnviewed, PendingStale]

  function DefaultTtl(key: TtlKey): int {
    match key
    case CompletedViewed => 1 * HOUR
    case CompletedUnviewed => 72 * HOUR
    case FailedViewed => 24 * HOUR
    case FailedUnviewed => 7 * 24 * HOUR
    case PendingStale => 24 * HOUR
  }

  /** Positive numbers only; anything else is no duration. */
  function ParseDuration(raw: RawTtl): Option<int> {
    if raw.Millis? && raw.ms > 0 then Some(raw.ms) else None
  }

  function Ttl(overrides: Overrides, key: TtlKey): int {
    if key in overrides && ParseDuration(overrides[key]).Some? then overrides[key].ms else DefaultTtl(key)
  }

  /** `resolveOperationTtlMs`: every key gets its readable override or its system default. */
  method ResolveTtls(overrides: Overrides) returns (resolved: map<TtlKey, int>)
    ensures forall key: TtlKey :: key in resolved && resolved[key] == Ttl(overrides, key) > 0
  {
    resolved := map[];
    for i := 0 to |TTL_KEYS|
      invariant forall j :: 0 <= j < i ==>
                  TTL_KEYS[j] in resolved && resolved[TTL_KEYS[j]] == Ttl(overrides, TTL_KEYS[j])
    {
      var key := TTL_KEYS[i];
      var parsed := if key in overrides then ParseDuration(overrides[key]) else None;
      resolved := resolved[key := if parsed.Some? then parsed.value else DefaultTtl(key)];
    }
    forall key: TtlKey ensures key in resolved && resolved[key] == Ttl(overrides, key) > 0 {
      assert key in TTL_KEYS by { AllKeys(key); }
    }
  }

  lemma {:induction false} AllKeys(key: TtlKey)
    ensures key in TTL_KEYS
  {
    match key
    case CompletedViewed => assert TTL_KEYS[0] == key;
    case CompletedUnviewed => assert TTL_KEYS[1] == key;
    case FailedViewed => assert TTL_KEYS[2] == key;
    case FailedUnviewed => assert TTL_KEYS[3] == key;
    case PendingStale => assert TTL_KEYS[4] == key;
  }

  predicate Terminal(state: OperationState) { state == Completed || state == Failed }

  /** `computeOperationExpiresAt` */
  function Expiry(state: OperationState, createdAt: Time, viewedAt: Option<Time>, overrides: Overrides): Time {
    match state
    case Pending => createdAt + Ttl(overrides, PendingStale)
    case Processing => createdAt + DEFAULT_CREATED_TTL
    case Completed =>
      if viewedAt.Some? then viewedAt.value + Ttl(overrides, CompletedViewed)
      else createdAt + Ttl(overrides, CompletedUnviewed)
    case Failed =>
      if viewedAt.Some? then viewedAt.value + Ttl(overrides, FailedViewed)
      else createdAt + Ttl(overrides, FailedUnviewed)
  }

  /** An override's duration where it is a positive number, otherwise so many hours. */
  function Span(overrides: Overrides, key: TtlKey, hours: int): int {
    if key in overrides && overrides[key].Millis? && overrides[key].ms > 0 then overrides[key].ms
    else hours * 3600000
  }

  /** The expiry rule, written out. */
  predicate ExpiresByRule(
      state: OperationState, createdAt: Time, viewedAt: Option<Time>, overrides: Overrides, expiresAt: Time) {
    && (state == Pending ==> expiresAt == createdAt + Span(overrides, PendingStale, 24))
    && (state == Processing ==> expiresAt == createdAt + 72 * 3600000)
    && (state == Completed && viewedAt.None? ==> expiresAt == createdAt + Span(overrides, CompletedUnviewed, 72))
    && (state == Completed && viewedAt.Some? ==> expiresAt == viewedAt.value + Span(overrides, CompletedViewed, 1))
    && (state == Failed && viewedAt.None? ==> expiresAt == createdAt + Span(overrides, FailedUnviewed, 7 * 24))
    && (state == Failed && viewedAt.Some? ==> expiresAt == viewedAt.value + Span(overrides, FailedViewed, 24))
  }

  lemma {:induction false} RuleWrittenOut(
      state: OperationState, createdAt: Time, viewedAt: Option<Time>, overrides: Overrides, expiresAt: Time)
    ensures ExpiresByRule(state, createdAt, viewedAt, overrides, expiresAt)
            <==> expiresAt == Expiry(state, createdAt, viewedAt, overrides)
  {
    match state
    case Pending =>
    case Processing =>
    case Completed =>
    case Failed =>
  }

  /** The state and view status whose lifetime a key sets. */
  predicate Governs(key: TtlKey, state: OperationState, viewed: bool) {
    match key
    case PendingStale => state == Pending
    case CompletedViewed => state == Completed && viewed
    case CompletedUnviewed => state == Completed && !viewed
    case FailedViewed => state == Failed && viewed
    case FailedUnviewed => state == Failed && !viewed
  }

  function DefaultHours(key: TtlKey): int {
    match key
    case CompletedViewed => 1
    case CompletedUnviewed => 72
    case FailedViewed => 24
    case FailedUnviewed => 168
    case PendingStale => 24
  }

  /** Setting a readable override moves the expiry of exactly the operations its key governs, by
      exactly the difference to the default; no key moves a processing one, and an unreadable or
      non-positive value moves none. */
  lemma {:induction false} OverrideMovesExactly(
      state: OperationState, createdAt: Time, viewedAt: Option<Time>, overrides: Overrides, key: TtlKey, raw: RawTtl)
    requires key !in overrides
    ensures var moved := Expiry(state, createdAt, viewedAt, overrides[key := raw])
                         - Expiry(state, createdAt, viewedAt, overrides);
            && (raw.Millis? && raw.ms > 0 && Governs(key, state, viewedAt.Some?) ==>
                  moved == raw.ms - DefaultHours(key) * 3600000)
            && (!(raw.Millis? && raw.ms > 0 && Governs(key, state, viewedAt.Some?)) ==> moved == 0)
            && (state == Processing ==> moved == 0)
  {
    match state
    case Pending =>
    case Processing =>
    case Completed =>
    case Failed =>
  }

  /** Only the two finished states respond to a view. */
  lemma {:induction false} ViewMovesOnlyFinished(state: OperationState, createdAt: Time, overrides: Overrides)
    ensures Terminal(state) <==>
            exists v :: Expiry(state, createdAt, Some(v), overrides) != Expiry(state, createdAt, None, overrides)
  {
    if Terminal(state) {
      var unviewed := Expiry(state, createdAt, None, overrides);
      assert Expiry(state, createdAt, Some(unviewed), overrides) != unviewed;
    }
  }

  datatype Operation = Operation(
    tenantId: Id, state: OperationState, createdAt: Time, viewedAt: Option<Time>, expiresAt: Time)

  type Table = map<Id, Operation>
  type Tenants = map<Id, Overrides>

  /** The expiry rule, applied to a stored operation. */
  predicate FollowsRule(op: Operation, tenants: Tenants) {
    op.tenantId in tenants ==>
      op.expiresAt == Expiry(op.state, op.createdAt, op.viewedAt, tenants[op.tenantId])
  }

  /** The same, written out. */
  predicate StoredByRule(op: Operation, tenants: Tenants) {
    op.tenantId in tenants ==>
      ExpiresByRule(op.state, op.createdAt, op.viewedAt, tenants[op.tenantId], op.expiresAt)
  }

  ghost predicate AllFollowRule(ops: Table, tenants: Tenants) {
    forall id :: id in ops ==> FollowsRule(ops[id], tenants)
  }

  /** Stamps the first view and its expiry; an operation already stamped, or gone, is left alone. */
  function FirstView(ops: Table, id: Id, viewedAt: Time, expiresAt: Time): Table {
    if id in ops && ops[id].viewedAt.None?
    then ops[id := ops[id].(viewedAt := Some(viewedAt), expiresAt := expiresAt)]
    else ops
  }

  function Stamped(op: Operation, now: Time, tenants: Tenants): Operation
    requires op.tenantId in tenants
  {
    op.(viewedAt := Some(now), expiresAt := Expiry(op.state, op.createdAt, Some(now), tenants[op.tenantId]))
  }

  datatype Event =
    | Create(id: Id, tenantId: Id, now: Time)
    | Poll(id: Id, tenantId: Id, now: Time)
    | MarkViewed(id: Id, now: Time)
    | Transition(id: Id, state: OperationState)

  function Viewed(ops: Table, tenants: Tenants, id: Id, now: Time): Table
    requires id in ops
  {
    var op := ops[id];
    if op.tenantId !in tenants then ops
    else FirstView(ops, id, now, Expiry(op.state, op.createdAt, Some(now), tenants[op.tenantId]))
  }

  /** The table after one service call that runs alone; a failed lookup changes nothing. */
  function Step(ops: Table, tenants: Tenants, e: Event): Table {
    match e
    case Create(id, tenantId, now) =>
      if id in ops || tenantId !in tenants then ops
      else ops[id := Operation(tenantId, Pending, now, None, Expiry(Pending, now, None, tenants[tenantId]))]
    case Poll(id, tenantId, now) =>
      if id !in ops || ops[id].tenantId != tenantId || !Terminal(ops[id].state) || ops[id].viewedAt.Some? then ops
      else Viewed(ops, tenants, id, now)
    case MarkViewed(id, now) =>
      if id !in ops || ops[id].viewedAt.Some? then ops else Viewed(ops, tenants, id, now)
    case Transition(id, state) =>
      if id !in ops || ops[id].tenantId !in tenants then ops
      else
        var op := ops[id];
        ops[id := op.(state := state,
                      expiresAt := Expiry(state, op.createdAt, op.viewedAt, tenants[op.tenantId]))]
  }

  function Run(ops: Table, tenants: Tenants, es: seq<Event>): Table {
    if es == [] then ops else Step(Run(ops, tenants, es[..|es| - 1]), tenants, es[|es| - 1])
  }

  lemma {:induction false} StepFollowsRule(ops: Table, tenants: Tenants, e: Event)
    requires AllFollowRule(ops, tenants)
    ensures var next := Step(ops, tenants, e);
            && AllFollowRule(next, tenants)
            && (forall id :: id in ops ==>
                  && id in next
                  && next[id].createdAt == ops[id].createdAt && next[id].tenantId == ops[id].tenantId
                  && (ops[id].viewedAt.Some? ==> next[id].viewedAt == ops[id].viewedAt))
  {
    var next := Step(ops, tenants, e);
    forall id | id in next ensures FollowsRule(next[id], tenants) {
      if id != e.id { assert id in ops && next[id] == ops[id]; }
    }
  }

  /** Over every run the stored expiry equals the rule applied to the stored state and times, an
      operation keeps its creation time and tenant, and a view time once set stays. */
  lemma {:induction false} ExpiryFollowsRule(ops: Table, tenants: Tenants, es: seq<Event>)
    requires AllFollowRule(ops, tenants)
    ensures var end := Run(ops, tenants, es);
            && AllFollowRule(end, tenants) && (forall id :: id in end ==> StoredByRule(end[id], tenants))
            && (forall id :: id in ops ==>
                  && id in end
                  && end[id].createdAt == ops[id].createdAt && end[id].tenantId == ops[id].tenantId
                  && (ops[id].viewedAt.Some? ==> end[id].viewedAt == ops[id].viewedAt))
  {
    if es != [] {
      ExpiryFollowsRule(ops, tenants, es[..|es| - 1]);
      StepFollowsRule(Run(ops, tenants, es[..|es| - 1]), tenants, es[|es| - 1]);
    }
    var end := Run(ops, tenants, es);
    forall id | id in end ensures StoredByRule(end[id], tenants) {
      assert FollowsRule(end[id], tenants);
      OperationWrittenOut(end[id], tenants);
    }
  }

  lemma {:induction false} OperationWrittenOut(op: Operation, tenants: Tenants)
    ensures FollowsRule(op, tenants) <==> StoredByRule(op, tenants)
  {
    if op.tenantId in tenants {
      RuleWrittenOut(op.state, op.createdAt, op.viewedAt, tenants[op.tenantId], op.expiresAt);
    }
  }

  /** Viewing an operation that is still in flight never moves its expiry. */
  lemma {:induction false} ViewKeepsInFlightExpiry(ops: Table, tenants: Tenants, e: Event, id: Id)
    requires AllFollowRule(ops, tenants)
    requires id in ops && !Terminal(ops[id].state) && (e.Poll? || e.MarkViewed?)
    ensures id in Step(ops, tenants, e) && Step(ops, tenants, e)[id].expiresAt == ops[id].expiresAt
    ensures e.Poll? && e.id == id ==> Step(ops, tenants, e) == ops
  {
    assert FollowsRule(ops[id], tenants);
  }

  // ----- the service --------------------------------------------------------------------

  class OperationService {
    var ops: Table
    const tenants: Tenants

    constructor (tenants: Tenants)
      ensures this.tenants == tenants && ops == map[]
    {
      this.tenants := tenants;
      ops := map[];
    }

    method CreateOperation(id: Id, tenantId: Id, now: Time) returns (created: Result<Operation>)
      requires id !in ops
      modifies this`ops
      ensures ops == Step(old(ops), tenants, Create(id, tenantId, now))
      ensures created == if tenantId in tenants then Ok(ops[id]) else NotFound
      ensures created.NotFound? ==> ops == old(ops)
      ensures created.Ok? ==>
        && created.value.(expiresAt := 0) == Operation(tenantId, Pending, now, None, 0)
        && StoredByRule(created.value, tenants)
    {
      if tenantId !in tenants {
        return NotFound;
      }
      var operation := Operation(tenantId, Pending, now, None, Expiry(Pending, now, None, tenants[tenantId]));
      OperationWrittenOut(operation, tenants);
      ops := ops[id := operation];
      created := Ok(operation);
    }

    method MarkFirstView(id: Id, viewedAt: Time, expiresAt: Time) returns (stored: bool)
      modifies this`ops
      ensures ops == FirstView(old(ops), id, viewedAt, expiresAt)
      ensures stored <==> id in old(ops) && old(ops)[id].viewedAt.None?
    {
      stored := id in ops && ops[id].viewedAt.None?;
      if stored {
        ops := ops[id := ops[id].(viewedAt := Some(viewedAt), expiresAt := expiresAt)];
      }
    }

    method ApplyViewed(id: Id, operation: Operation, now: Time) returns (r: Result<Operation>)
      requires id in ops && ops[id] == operation
      modifies this`ops
      ensures ops == if operation.viewedAt.None? then Viewed(old(ops), tenants, id, now) else old(ops)
      ensures r == if operation.tenantId in tenants then Ok(ops[id]) else NotFound
      ensures r.Ok? && operation.viewedAt.None? ==>
        && ops == old(ops)[id := r.value]
        && r.value == operation.(viewedAt := Some(now), expiresAt := r.value.expiresAt)
        && StoredByRule(r.value, tenants)
    {
      if operation.tenantId !in tenants {
        return NotFound;
      }
      OperationWrittenOut(Stamped(operation, now, tenants), tenants);
      var expiresAt := Expiry(operation.state, operation.createdAt, Some(now), tenants[operation.tenantId]);
      var stored := MarkFirstView(id, now, expiresAt);
      if !stored {
        return if id in ops then Ok(ops[id]) else NotFound;
      }
      r := Ok(operation.(viewedAt := Some(now), expiresAt := expiresAt));
    }

    method GetForTenant(tenantId: Id, id: Id, now: Time) returns (r: Result<Operation>)
      modifies this`ops
      ensures ops == Step(old(ops), tenants, Poll(id, tenantId, now))
      ensures r.Ok? <==>
        && id in old(ops) && old(ops)[id].tenantId == tenantId
        && (tenantId in tenants || !Terminal(old(ops)[id].state) || old(ops)[id].viewedAt.Some?)
      ensures r.Ok? ==> r.value == ops[id] && (r.value.state in {Completed, Failed} ==> r.value.viewedAt.Some?)
      ensures r.NotFound? ==> ops == old(ops)
      ensures r.Ok? && ops != old(ops) ==>
        && old(ops)[id].state in {Completed, Failed} && old(ops)[id].viewedAt.None? && ops == old(ops)[id := r.value]
        && r.value == old(ops)[id].(viewedAt := Some(now), expiresAt := r.value.expiresAt)
        && StoredByRule(r.value, tenants)
    {
      if id !in ops || ops[id].tenantId != tenantId {
        return NotFound;
      }
      var operation := ops[id];
      if !Terminal(operation.state) || operation.viewedAt.Some? {
        return Ok(operation);
      }
      r := ApplyViewed(id, operation, now);
    }

    method MarkViewed(id: Id, now: Time) returns (r: Result<Operation>)
      modifies this`ops
      ensures ops == Step(old(ops), tenants, Event.MarkViewed(id, now))
      ensures r.Ok? <==> id in old(ops) && (old(ops)[id].tenantId in tenants || old(ops)[id].viewedAt.Some?)
      ensures r.Ok? ==> r.value == ops[id] && r.value.viewedAt.Some?
      ensures r.NotFound? || old(ops)[id].viewedAt.Some? ==> ops == old(ops)
      ensures r.Ok? && old(ops)[id].viewedAt.None? ==>
        && ops == old(ops)[id := r.value]
        && r.value == old(ops)[id].(viewedAt := Some(now), expiresAt := r.value.expiresAt)
        && StoredByRule(r.value, tenants)
    {
      if id !in ops {
        return NotFound;
      }
      var operation := ops[id];
      if operation.viewedAt.Some? {
        return Ok(operation);
      }
      r := ApplyViewed(id, operation, now);
    }

    method TransitionState(id: Id, state: OperationState) returns (r: Result<Operation>)
      modifies this`ops
      ensures ops == Step(old(ops), tenants, Transition(id, state))
      ensures r == if id in old(ops) && old(ops)[id].tenantId in tenants then Ok(ops[id]) else NotFound
      ensures r.NotFound? ==> ops == old(ops)
      ensures r.Ok? ==>
        && ops == old(ops)[id := r.value]
        && r.value == old(ops)[id].(state := state, expiresAt := r.value.expiresAt)
        && StoredByRule(r.value, tenants)
    {
      if id !in ops || ops[id].tenantId !in tenants {
        return NotFound;
      }
      var operation := ops[id].(state := state);
      operation := operation.(expiresAt :=
        Expiry(state, operation.createdAt, operation.viewedAt, tenants[operation.tenantId]));
      OperationWrittenOut(operation, tenants);
      ops := ops[id := operation];
      r := Ok(operation);
    }
  }

  // ----- concurrent polls of one operation ----------------------------------------------

  /** Where a poll stands: it has loaded its copy; it has fixed the view time it will stamp; its
      stamp found nothing to update; it has answered. */
  datatype PollState =
    | Loaded(copy: Operation)
    | Stamping(copy: Operation, viewedAt: Time, expiresAt: Time)
    | Missed
    | Answered(answer: Result<Operation>)

  /** `row` is the stored operation (none once purged); `stamps` counts the rows updated. */
  datatype Shared = Shared(row: Option<Operation>, polls: map<Id, PollState>, stamps: nat)

  datatype PollEvent =
    | Load(pid: Id)
    | Decide(pid: Id, now: Time)
    | Stamp(pid: Id)
    | Reread(pid: Id)
    | Purge

  function PollStep(s: Shared, overrides: Overrides, e: PollEvent): Shared {
    match e
    case Load(pid) =>
      if pid in s.polls then s
      else if s.row.None? then s.(polls := s.polls[pid := Answered(NotFound)])
      else
        var op := s.row.value;
        s.(polls := s.polls[pid := if !Terminal(op.state) || op.viewedAt.Some? then Answered(Ok(op)) else Loaded(op)])
    case Decide(pid, now) =>
      if pid !in s.polls || !s.polls[pid].Loaded? then s
      else
        var op := s.polls[pid].copy;
        s.(polls := s.polls[pid := Stamping(op, now, Expiry(op.state, op.createdAt, Some(now), overrides))])
    case Stamp(pid) =>
      if pid !in s.polls || !s.polls[pid].Stamping? then s
      else
        var p := s.polls[pid];
        if s.row.Some? && s.row.value.viewedAt.None? then
          Shared(Some(s.row.value.(viewedAt := Some(p.viewedAt), expiresAt := p.expiresAt)),
                 s.polls[pid := Answered(Ok(p.copy.(viewedAt := Some(p.viewedAt), expiresAt := p.expiresAt)))],
                 s.stamps + 1)
        else s.(polls := s.polls[pid := Missed])
    case Reread(pid) =>
      if pid !in s.polls || !s.polls[pid].Missed? then s
      else s.(polls := s.polls[pid := Answered(if s.row.Some? then Ok(s.row.value) else NotFound)])
    case Purge => s.(row := None)
  }

  function PollRun(op: Operation, overrides: Overrides, es: seq<PollEvent>): Shared {
    if es == [] then Shared(Some(op), map[], 0)
    else PollStep(PollRun(op, overrides, es[..|es| - 1]), overrides, es[|es| - 1])
  }

  /** The times at which polls of the run decided to stamp. */
  function DecidedTimes(es: seq<PollEvent>): set<Time> {
    if es == [] then {}
    else DecidedTimes(es[..|es| - 1]) + (if es[|es| - 1].Decide? then {es[|es| - 1].now} else {})
  }

  /** Every stamp, stored or on its way, carries a time that some poll read. */
  ghost predicate StampsDecided(s: Shared, op: Operation, times: set<Time>) {
    && (forall p :: p in s.polls && s.polls[p].Stamping? ==> s.polls[p].viewedAt in times)
    && (s.row.Some? && s.row.value.viewedAt.Some? && op.viewedAt.None? ==> s.row.value.viewedAt.value in times)
    && (forall p :: p in s.polls && s.polls[p].Loaded? ==> s.polls[p].copy == op)
    && (op.viewedAt.None? ==> forall p :: p in s.polls ==> AnswersWithin(s.polls[p], times))
  }

  /** A viewed answer carries one of the times. */
  predicate AnswersWithin(p: PollState, times: set<Time>) {
    p.Answered? && p.answer.Ok? && p.answer.value.viewedAt.Some? ==> p.answer.value.viewedAt.value in times
  }

  lemma {:induction false} StampsAreDecided(op: Operation, overrides: Overrides, es: seq<PollEvent>)
    ensures StampsDecided(PollRun(op, overrides, es), op, DecidedTimes(es))
  {
    if es != [] {
      var n := |es| - 1;
      StampsAreDecided(op, overrides, es[..n]);
      var _ := PollsSettle(op, overrides, es[..n]);
      StampStep(PollRun(op, overrides, es[..n]), op, overrides, es[n], DecidedTimes(es[..n]));
    }
  }

  lemma {:induction false} StampStep(s: Shared, op: Operation, overrides: Overrides, e: PollEvent, times: set<Time>)
    requires StampsDecided(s, op, times)
    requires s.row.Some? && s.row.value.viewedAt.None? ==> s.row.value == op
    ensures StampsDecided(PollStep(s, overrides, e), op, times + (if e.Decide? then {e.now} else {}))
  {}

  /** `seen` is what a viewed copy of the operation looks like in this run. */
  ghost predicate Settled(s: Shared, op: Operation, overrides: Overrides, seen: Option<Operation>) {
    && (seen.Some? ==>
          && seen.value.viewedAt.Some?
          && seen.value == op.(viewedAt := seen.value.viewedAt, expiresAt := seen.value.expiresAt)
          && (op.viewedAt.Some? ==> seen.value == op)
          && (op.viewedAt.None? ==>
                && Terminal(op.state)
                && seen.value.expiresAt == Expiry(op.state, op.createdAt, seen.value.viewedAt, overrides)))
    && (s.row.Some? ==> s.row == if seen.Some? then seen else Some(op))
    && s.stamps == (if seen.Some? && op.viewedAt.None? then 1 else 0)
    && (op.viewedAt.Some? ==> seen.Some?)
    && (forall p :: p in s.polls ==> PollSettled(s, s.polls[p], op, overrides, seen))
  }

  ghost predicate PollSettled(s: Shared, p: PollState, op: Operation, overrides: Overrides, seen: Option<Operation>) {
    match p
    case Loaded(copy) => copy == op && op.viewedAt.None? && Terminal(op.state)
    case Stamping(copy, v, x) =>
      copy == op && op.viewedAt.None? && Terminal(op.state) && x == Expiry(op.state, op.createdAt, Some(v), overrides)
    case Missed => Terminal(op.state) && (s.row.Some? ==> seen.Some?)
    case Answered(Ok(answer)) => if Terminal(op.state) then Some(answer) == seen else answer == op
    case Answered(NotFound) => s.row.None?
  }

  predicate Wins(s: Shared, e: PollEvent) {
    e.Stamp? && e.pid in s.polls && s.polls[e.pid].Stamping? && s.row.Some? && s.row.value.viewedAt.None?
  }

  lemma {:induction false} WinSettles(
      s: Shared, op: Operation, overrides: Overrides, e: PollEvent, seen: Option<Operation>)
    requires Settled(s, op, overrides, seen) && Wins(s, e)
    ensures Settled(PollStep(s, overrides, e), op, overrides, PollStep(s, overrides, e).row)
  {
    var t := PollStep(s, overrides, e);
    assert PollSettled(s, s.polls[e.pid], op, overrides, seen);
    forall p | p in s.polls && p != e.pid ensures PollSettled(t, s.polls[p], op, overrides, t.row) {
      assert PollSettled(s, s.polls[p], op, overrides, seen);
    }
  }

  lemma {:induction false} OtherStepSettles(
      s: Shared, op: Operation, overrides: Overrides, e: PollEvent, seen: Option<Operation>)
    requires Settled(s, op, overrides, seen) && !Wins(s, e)
    ensures Settled(PollStep(s, overrides, e), op, overrides, seen)
  {
    var t := PollStep(s, overrides, e);
    forall p | p in t.polls ensures PollSettled(t, t.polls[p], op, overrides, seen) {
      if p in s.polls { assert PollSettled(s, s.polls[p], op, overrides, seen); }
    }
  }

  lemma {:induction false} PollsSettle(op: Operation, overrides: Overrides, es: seq<PollEvent>)
    returns (seen: Option<Operation>)
    ensures Settled(PollRun(op, overrides, es), op, overrides, seen)
  {
    if es == [] {
      seen := if op.viewedAt.Some? then Some(op) else None;
    } else {
      var n := |es| - 1;
      seen := PollsSettle(op, overrides, es[..n]);
      var s, e := PollRun(op, overrides, es[..n]), es[n];
      if Wins(s, e) {
        WinSettles(s, op, overrides, e, seen);
        seen := PollStep(s, overrides, e).row;
      } else {
        OtherStepSettles(s, op, overrides, e, seen);
      }
    }
  }

  /** However polls and the purge interleave, at most one poll stamps the operation, every poll
      that answers gives the same viewed and expiry times, those follow the expiry rule, and
      not-found is answered only once the row is gone. */
  lemma {:induction false} OneStampWins(op: Operation, overrides: Overrides, es: seq<PollEvent>, p: Id, q: Id)
    requires Terminal(op.state)
    requires p in PollRun(op, overrides, es).polls && q in PollRun(op, overrides, es).polls
    ensures PollRun(op, overrides, es).stamps <= 1
    ensures var s := PollRun(op, overrides, es);
            && (s.polls[p].Answered? && s.polls[p].answer.Ok? ==>
                  var answer := s.polls[p].answer.value;
                  && answer.viewedAt.Some?
                  && (op.viewedAt.None? ==>
                        && s.stamps == 1 && answer.viewedAt.value in DecidedTimes(es)
                        && ExpiresByRule(op.state, op.createdAt, answer.viewedAt, overrides, answer.expiresAt))
                  && (s.polls[q].Answered? && s.polls[q].answer.Ok? ==> answer == s.polls[q].answer.value))
            && (s.polls[p] == Answered(NotFound) ==> s.row.None?)
  {
    var seen := PollsSettle(op, overrides, es);
    var s := PollRun(op, overrides, es);
    assert PollSettled(s, s.polls[p], op, overrides, seen) && PollSettled(s, s.polls[q], op, overrides, seen);
    StampsAreDecided(op, overrides, es);
    if s.polls[p].Answered? && s.polls[p].answer.Ok? {
      var answer := s.polls[p].answer.value;
      RuleWrittenOut(op.state, op.createdAt, answer.viewedAt, overrides, answer.expiresAt);
    }
  }

  /** Once the purge has come the row stays gone, and a poll that starts then finds nothing. */
  lemma {:induction false} PurgedIsNotFound(op: Operation, overrides: Overrides, es: seq<PollEvent>, p: Id)
    requires Purge in es
    ensures PollRun(op, overrides, es).row.None?
    ensures p !in PollRun(op, overrides, es).polls ==>
              var t := PollRun(op, overrides, es + [Load(p)]);
              p in t.polls && t.polls[p] == Answered(NotFound)
  {
    var n := |es| - 1;
    if es[n] != Purge {
      assert Purge in es[..n];
      PurgedIsNotFound(op, overrides, es[..n], p);
    }
    assert (es + [Load(p)])[..|es|] == es;
  }

  /** A poll that lost its stamp and finds no row when it reads again reports not-found, and one
      that finds the row reports the winner's values. */
  lemma {:induction false} LoserRereads(op: Operation, overrides: Overrides, es: seq<PollEvent>, p: Id)
    requires p in PollRun(op, overrides, es).polls && PollRun(op, overrides, es).polls[p].Missed?
    ensures var s := PollRun(op, overrides, es);
            var t := PollRun(op, overrides, es + [Reread(p)]);
            t.polls[p] == Answered(if s.row.None? then NotFound else Ok(s.row.value))
            && (s.row.Some? ==> s.row.value.viewedAt.Some?)
  {
    var seen := PollsSettle(op, overrides, es);
    assert PollSettled(PollRun(op, overrides, es), PollRun(op, overrides, es).polls[p], op, overrides, seen);
    assert (es + [Reread(p)])[..|es|] == es;
  }
}
