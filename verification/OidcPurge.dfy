/** The hourly purge of expired OIDC records: batches of the earliest-expired rows, with the
    upstream logout of linked sessions attempted before each batch is deleted. */
module OidcPurge {
  import opened Options
  import opened Cardinality
  import OidcStore

  type Id = OidcStore.Key
  type Time = OidcStore.Time
  type Model = OidcStore.Model
  type Table = OidcStore.Table

  const BATCH_SIZE: nat := 500
  const MAX_BATCHES_PER_RUN: nat := 50

  function Expired(rows: Table, now: Time): set<Id> {
    set i | i in rows && rows[i].expiresAt.Some? && rows[i].expiresAt.value < now
  }

  /** The expired sessions with an upstream session linked to them. */
  function LinkedSessions(rows: Table, links: set<Id>, now: Time): set<Id> {
    set i | i in Expired(rows, now) && i.model == OidcStore.Session && i in links
  }

  predicate Timed(rows: Table, ids: set<Id>) {
    forall i :: i in ids ==> i in rows && rows[i].expiresAt.Some?
  }

  function At(rows: Table, i: Id): Time
    requires i in rows && rows[i].expiresAt.Some?
  {
    rows[i].expiresAt.value
  }

  /** `chosen` is a possible outcome of `ORDER BY expires_at LIMIT k` over `ids`: rows expiring
      at the same time come in any order. */
  ghost predicate IsFirst(rows: Table, ids: set<Id>, k: nat, chosen: set<Id>)
    requires Timed(rows, ids)
  {
    && chosen <= ids
    && |chosen| == (if |ids| <= k then |ids| else k)
    && forall c, e :: c in chosen && e in ids && e !in chosen ==> At(rows, c) <= At(rows, e)
  }

  lemma {:induction false} FirstOfFew(rows: Table, ids: set<Id>, k: nat, chosen: set<Id>)
    requires Timed(rows, ids) && IsFirst(rows, ids, k, chosen) && |ids| <= k
    ensures chosen == ids
  {
    SubsetSize(chosen, ids);
  }

  ghost predicate DistinctTimes(rows: Table, ids: set<Id>)
    requires Timed(rows, ids)
  {
    forall a, b :: a in ids && b in ids && a != b ==> At(rows, a) != At(rows, b)
  }

  // ----- logout comes before deletion ---------------------------------------------------

  function Earlier(rows: Table, ids: set<Id>, x: Id): set<Id>
    requires Timed(rows, ids) && x in ids
  {
    set y | y in ids && At(rows, y) < At(rows, x)
  }

  function NoLater(rows: Table, ids: set<Id>, x: Id): set<Id>
    requires Timed(rows, ids) && x in ids
  {
    set y | y in ids && y != x && At(rows, y) <= At(rows, x)
  }

  /** Whether expiry times leave no choice that deletes `x` among all rows of the batch and yet
      passes it over among the linked ones. */
  predicate NoTieAround(rows: Table, all: set<Id>, linked: set<Id>, k: nat, x: Id)
    requires Timed(rows, all) && linked <= all && x in linked
  {
    |Earlier(rows, all, x)| >= k || |NoLater(rows, linked, x)| < k
  }

  lemma {:induction false} BatchWithinLogouts(
      rows: Table, all: set<Id>, linked: set<Id>, k: nat, batch: set<Id>, logouts: set<Id>, x: Id)
    requires Timed(rows, all) && linked <= all
    requires IsFirst(rows, all, k, batch) && IsFirst(rows, linked, k, logouts)
    requires x in linked && x in batch && NoTieAround(rows, all, linked, k, x)
    ensures x in logouts
  {
    if x !in logouts {
      SubsetSize(logouts, linked - {x});
      SubsetSize(logouts, NoLater(rows, linked, x));
      SubsetSize(Earlier(rows, all, x) + {x}, batch);
    }
  }

  /** The logout query of an iteration runs at `asked` and its delete at `deleted`. Every linked
      session the batch deletes is among those whose upstream logout was attempted, whatever
      order rows expiring together come in, if and only if no session the first query sees has a
      tie around it and none that expires between the two finds room in the batch. */
  lemma {:induction false} LogoutFirstExactly(rows: Table, links: set<Id>, asked: Time, deleted: Time, k: nat)
    requires asked <= deleted
    ensures var all := Expired(rows, deleted);
            var seen, linked := LinkedSessions(rows, links, asked), LinkedSessions(rows, links, deleted);
            (forall batch, logouts ::
               IsFirst(rows, all, k, batch) && IsFirst(rows, seen, k, logouts) ==> batch * linked <= logouts)
            <==> (&& (forall x :: x in seen ==> NoTieAround(rows, all, seen, k, x))
                  && (forall x :: x in linked && x !in seen ==> |Earlier(rows, all, x)| >= k))
  {
    var all := Expired(rows, deleted);
    var seen, linked := LinkedSessions(rows, links, asked), LinkedSessions(rows, links, deleted);
    if x :| x in seen && !NoTieAround(rows, all, seen, k, x) {
      var batch := BatchWith(rows, all, k, x);
      var logouts := LogoutsWithout(rows, seen, k, x);
      assert x in batch * linked && x !in logouts;
    } else if x :| x in linked && x !in seen && |Earlier(rows, all, x)| < k {
      var batch := BatchWith(rows, all, k, x);
      var logouts := FirstExists(rows, seen, k);
      assert x in batch * linked && x !in logouts;
    } else {
      forall batch, logouts | IsFirst(rows, all, k, batch) && IsFirst(rows, seen, k, logouts)
        ensures batch * linked <= logouts
      {
        LogoutsCover(rows, all, seen, linked, k, batch, logouts);
      }
    }
  }

  lemma {:induction false} LogoutsCover(
      rows: Table, all: set<Id>, seen: set<Id>, linked: set<Id>, k: nat, batch: set<Id>, logouts: set<Id>)
    requires Timed(rows, all) && seen <= linked <= all
    requires IsFirst(rows, all, k, batch) && IsFirst(rows, seen, k, logouts)
    requires forall x :: x in seen ==> NoTieAround(rows, all, seen, k, x)
    requires forall x :: x in linked && x !in seen ==> |Earlier(rows, all, x)| >= k
    ensures batch * linked <= logouts
  {
    forall x | x in batch * linked ensures x in logouts {
      if x in seen {
        BatchWithinLogouts(rows, all, seen, k, batch, logouts, x);
      } else {
        SubsetSize(Earlier(rows, all, x) + {x}, batch);
      }
    }
  }

  function Expiring(time: Time): OidcStore.Row { OidcStore.Row(None, None, Some(time), 0, None) }

  function SessionKey(i: nat): Id { OidcStore.Key(OidcStore.Session, i) }

  /** A linked session that expires between the two queries is deleted without an attempt,
      although its expiry time is unlike any other. */
  lemma {:induction false} LateSessionGoesFirst(time: Time, k: nat)
    requires k >= 1
    ensures var x := SessionKey(0);
            var rows: Table := map[x := Expiring(time)];
            && LinkedSessions(rows, {x}, time) == {} && IsFirst(rows, {}, k, {})
            && LinkedSessions(rows, {x}, time + 1) == Expired(rows, time + 1) == {x} && IsFirst(rows, {x}, k, {x})
  {}

  /** The sessions numbered from `a` up to `b`. */
  function Numbered(a: nat, b: nat): set<Id> { set i | a <= i < b :: SessionKey(i) }

  lemma {:induction false} NumberedSize(a: nat, b: nat)
    requires a <= b
    ensures |Numbered(a, b)| == b - a
  {
    if a < b {
      NumberedSize(a, b - 1);
      assert Numbered(a, b) == Numbered(a, b - 1) + {SessionKey(b - 1)};
    } else {
      assert Numbered(a, b) == {};
    }
  }

  /** Among `k + 1` linked sessions with one expiry time the two queries may choose differently:
      one of them is deleted without an attempt. */
  lemma {:induction false} TiedSessionMayGoFirst(time: Time, k: nat) returns (rows: Table)
    requires k >= 1
    ensures var all := Numbered(0, k + 1);
            && rows.Keys == all && Expired(rows, time + 1) == LinkedSessions(rows, all, time + 1) == all
            && IsFirst(rows, all, k, Numbered(1, k + 1)) && IsFirst(rows, all, k, Numbered(0, k))
            && SessionKey(k) in Numbered(1, k + 1) && SessionKey(k) !in Numbered(0, k)
  {
    var all := Numbered(0, k + 1);
    rows := map i | i in all :: Expiring(time);
    NumberedSize(0, k + 1);
    NumberedSize(1, k + 1);
    NumberedSize(0, k);
  }

  lemma {:induction false} FirstExists(rows: Table, ids: set<Id>, k: nat) returns (chosen: set<Id>)
    requires Timed(rows, ids)
    ensures IsFirst(rows, ids, k, chosen)
    decreases k
  {
    if k == 0 || ids == {} {
      chosen := {};
    } else {
      var m := Earliest(rows, ids);
      var rest := FirstExists(rows, ids - {m}, k - 1);
      chosen := rest + {m};
    }
  }

  lemma {:induction false} Earliest(rows: Table, ids: set<Id>) returns (m: Id)
    requires Timed(rows, ids) && ids != {}
    ensures m in ids && forall i :: i in ids ==> At(rows, m) <= At(rows, i)
    decreases |ids|
  {
    m :| m in ids;
    if ids != {m} {
      assert ids - {m} != {};
      var n := Earliest(rows, ids - {m});
      if At(rows, n) < At(rows, m) { m := n; }
    }
  }

  lemma {:induction false} BatchWith(rows: Table, all: set<Id>, k: nat, x: Id) returns (batch: set<Id>)
    requires Timed(rows, all) && x in all && |Earlier(rows, all, x)| < k
    ensures IsFirst(rows, all, k, batch) && x in batch
  {
    var rest := FirstExists(rows, all - {x}, k - 1);
    batch := rest + {x};
    forall e | e in all && e !in batch ensures At(rows, x) <= At(rows, e) {
      if At(rows, e) < At(rows, x) {
        if |all - {x}| <= k - 1 { FirstOfFew(rows, all - {x}, k - 1, rest); }
        SubsetSize(rest + {e}, Earlier(rows, all, x));
      }
    }
  }

  lemma {:induction false} LogoutsWithout(rows: Table, linked: set<Id>, k: nat, x: Id) returns (logouts: set<Id>)
    requires Timed(rows, linked) && x in linked && |NoLater(rows, linked, x)| >= k
    ensures IsFirst(rows, linked, k, logouts) && x !in logouts
  {
    logouts := FirstExists(rows, linked - {x}, k);
    SubsetSize(NoLater(rows, linked, x), linked - {x});
    forall c | c in logouts ensures At(rows, c) <= At(rows, x) {
      if At(rows, c) > At(rows, x) {
        SubsetSize(NoLater(rows, linked, x) + {c}, logouts);
      }
    }
  }

  /** Distinct expiry times are enough. */
  lemma {:induction false} DistinctTimesSuffice(rows: Table, all: set<Id>, linked: set<Id>, k: nat, x: Id)
    requires Timed(rows, all) && linked <= all && DistinctTimes(rows, linked) && x in linked
    ensures NoTieAround(rows, all, linked, k, x)
  {
    assert NoLater(rows, linked, x) <= Earlier(rows, all, x);
    SubsetSize(NoLater(rows, linked, x), Earlier(rows, all, x));
  }

  lemma {:induction false} FirstOfNone(rows: Table, ids: set<Id>, k: nat)
    requires Timed(rows, ids) && k > 0 && IsFirst(rows, ids, k, {})
    ensures ids == {}
  {
    assert |ids| == 0;
  }

  // ----- batches add up -----------------------------------------------------------------

  /** Deleting the first `k` and then the first `l` of the rest deletes the first `k + l`. */
  lemma {:induction false} FirstThenFirst(rows: Table, ids: set<Id>, k: nat, a: set<Id>, l: nat, b: set<Id>)
    requires Timed(rows, ids) && IsFirst(rows, ids, k, a) && IsFirst(rows, ids - a, l, b)
    ensures IsFirst(rows, ids, k + l, a + b)
  {
    SubsetSize(a, ids);
    assert |ids - a| == |ids| - |a|;
    assert |a + b| == |a| + |b|;
  }

  function OfModel(rows: Table, ids: set<Id>, model: Model): set<Id> {
    set i | i in ids && i in rows && i.model == model
  }

  lemma {:induction false} ModelsAdd(rows: Table, a: set<Id>, b: set<Id>, model: Model)
    requires a !! b
    ensures |OfModel(rows, a + b, model)| == |OfModel(rows, a, model)| + |OfModel(rows, b, model)|
  {
    assert OfModel(rows, a + b, model) == OfModel(rows, a, model) + OfModel(rows, b, model);
  }

  function CountOf(counts: map<Model, nat>, model: Model): nat { if model in counts then counts[model] else 0 }

  /** `counts` is the `GROUP BY model_name` of `ids`. */
  ghost predicate Counts(counts: map<Model, nat>, rows: Table, ids: set<Id>) {
    forall model: Model :: CountOf(counts, model) == |OfModel(rows, ids, model)|
  }

  /** `sum` is `totals` with the batch counted in. */
  ghost predicate AddsUp(totals: map<Model, nat>, sum: map<Model, nat>, rows: Table, batch: set<Id>) {
    forall model: Model :: CountOf(sum, model) == CountOf(totals, model) + |OfModel(rows, batch, model)|
  }

  // ----- the run ------------------------------------------------------------------------

  /** What a run does to the outside, in order: the logouts an iteration attempts and then the
      rows it deletes; `asked` is when that iteration queried for linked sessions. */
  datatype Action = Attempt(ids: set<Id>) | Purge(ids: set<Id>, asked: Time)

  function Attempted(log: seq<Action>): set<Id> {
    if log == [] then {}
    else Attempted(log[..|log| - 1]) + (if log[|log| - 1].Attempt? then log[|log| - 1].ids else {})
  }

  function Purged(log: seq<Action>): set<Id> {
    if log == [] then {}
    else Purged(log[..|log| - 1]) + (if log[|log| - 1].Purge? then log[|log| - 1].ids else {})
  }

  /** Each row of `linked` that a purge removes had its upstream logout attempted before. */
  predicate LogoutsFirst(log: seq<Action>, linked: set<Id>) {
    log == [] ||
    (&& LogoutsFirst(log[..|log| - 1], linked)
     && (log[|log| - 1].Purge? ==> log[|log| - 1].ids * linked <= Attempted(log[..|log| - 1])))
  }

  /** The row had expired by the time of the query. */
  predicate ExpiredBy(rows: Table, i: Id, time: Time) {
    i in rows && rows[i].expiresAt.Some? && rows[i].expiresAt.value < time
  }

  /** No row of `linked` that a purge removes expired after its iteration's logout query. */
  predicate NoneLate(rows: Table, log: seq<Action>, linked: set<Id>) {
    log == [] ||
    (&& NoneLate(rows, log[..|log| - 1], linked)
     && (log[|log| - 1].Purge? ==> AllExpiredBy(rows, log[|log| - 1].ids * linked, log[|log| - 1].asked)))
  }

  predicate AllExpiredBy(rows: Table, ids: set<Id>, time: Time) { forall x :: x in ids ==> ExpiredBy(rows, x, time) }

  lemma {:induction false} LogMore(rows: Table, log: seq<Action>, a: Action, linked: set<Id>)
    ensures Attempted(log + [a]) == Attempted(log) + (if a.Attempt? then a.ids else {})
    ensures Purged(log + [a]) == Purged(log) + (if a.Purge? then a.ids else {})
    ensures LogoutsFirst(log + [a], linked)
            <==> LogoutsFirst(log, linked) && (a.Purge? ==> a.ids * linked <= Attempted(log))
    ensures NoneLate(rows, log + [a], linked)
            <==> && NoneLate(rows, log, linked)
                 && (a.Purge? ==> AllExpiredBy(rows, a.ids * linked, a.asked))
  {
    assert (log + [a])[..|log|] == log;
  }

  /** `ORDER BY expires_at LIMIT k` */
  method SelectFirst(rows: Table, ids: set<Id>, k: nat) returns (chosen: set<Id>)
    requires Timed(rows, ids)
    ensures IsFirst(rows, ids, k, chosen)
  {
    chosen := {};
    while ids - chosen != {} && |chosen| < k
      invariant chosen <= ids && |chosen| <= k && IsFirst(rows, ids, |chosen|, chosen)
      decreases k - |chosen|
    {
      var left := ids - chosen;
      var m :| m in left;
      var todo := left - {m};
      while todo != {}
        invariant m in left && todo <= left
        invariant forall i :: i in left - todo ==> At(rows, m) <= At(rows, i)
        decreases |todo|
      {
        var i :| i in todo;
        if At(rows, i) < At(rows, m) { m := i; }
        todo := todo - {i};
      }
      SubsetSize({m}, left);
      FirstThenFirst(rows, ids, |chosen|, chosen, 1, {m});
      chosen := chosen + {m};
    }
    SubsetSize(chosen, ids);
    if ids - chosen == {} { assert chosen == ids; }
  }

  method AddCounts(totals: map<Model, nat>, batch: map<Model, nat>) returns (sum: map<Model, nat>)
    ensures forall model: Model :: CountOf(sum, model) == CountOf(totals, model) + CountOf(batch, model)
  {
    sum := totals;
    var todo := batch.Keys;
    while todo != {}
      invariant todo <= batch.Keys
      invariant forall model: Model ::
                  CountOf(sum, model) == CountOf(totals, model) + (if model in todo then 0 else CountOf(batch, model))
      decreases |todo|
    {
      var model :| model in todo;
      sum := sum[model := CountOf(sum, model) + batch[model]];
      todo := todo - {model};
    }
  }

  /** When each iteration queries for linked sessions, and when it deletes. */
  datatype Clock = Clock(asked: seq<Time>, deleted: seq<Time>)

  /** There is a time for every iteration, and the clock never goes back. */
  ghost predicate Ticks(clock: Clock) {
    && |clock.asked| == |clock.deleted| == MAX_BATCHES_PER_RUN
    && forall i, j :: 0 <= i <= j < MAX_BATCHES_PER_RUN ==> InOrder(clock, i, j)
  }

  predicate InOrder(clock: Clock, i: nat, j: nat)
    requires |clock.asked| == |clock.deleted| == MAX_BATCHES_PER_RUN && i <= j < MAX_BATCHES_PER_RUN
  {
    && clock.asked[i] <= clock.asked[j] <= clock.deleted[j]
    && clock.deleted[i] <= clock.deleted[j]
    && (i < j ==> clock.deleted[i] <= clock.asked[j])
  }

  /** When a run could delete at the latest. */
  function Horizon(clock: Clock): Time
    requires |clock.deleted| == MAX_BATCHES_PER_RUN
  {
    clock.deleted[MAX_BATCHES_PER_RUN - 1]
  }

  /** The time of the last delete after `batches` of them. */
  function LastDelete(clock: Clock, batches: nat): Time
    requires |clock.deleted| == MAX_BATCHES_PER_RUN && batches <= MAX_BATCHES_PER_RUN
  {
    clock.deleted[if batches == 0 then 0 else batches - 1]
  }

  function Least(a: nat, b: nat): nat { if a <= b then a else b }

  /** The earliest of the rows expired by `time` are gone; as many as `batches` batches hold, of
      those expired by the first delete at least. */
  ghost predicate Progress(start: Table, rows: Table, first: Time, time: Time, batches: nat, purged: set<Id>) {
    && rows == start - purged
    && IsFirst(start, Expired(start, time), |purged|, purged)
    && Least(|Expired(start, first)|, batches * BATCH_SIZE) <= |purged| <= batches * BATCH_SIZE
  }

  lemma {:induction false} StillExpired(start: Table, rows: Table, now: Time, purged: set<Id>)
    requires rows == start - purged
    ensures Expired(rows, now) == Expired(start, now) - purged && Timed(start, Expired(start, now))
  {}

  /** Which rows come first does not depend on rows that are not among them. */
  lemma {:induction false} SameFirst(start: Table, rows: Table, ids: set<Id>, k: nat, first: set<Id>)
    requires Timed(rows, ids) && IsFirst(rows, ids, k, first)
    requires forall i :: i in ids ==> i in start && start[i] == rows[i]
    ensures IsFirst(start, ids, k, first)
  {}

  /** Rows that expire later come behind those that were first before. */
  lemma {:induction false} FirstStaysFirst(start: Table, time: Time, later: Time, purged: set<Id>)
    requires time <= later && IsFirst(start, Expired(start, time), |purged|, purged)
    ensures IsFirst(start, Expired(start, later), |purged|, purged)
    ensures |Expired(start, time)| <= |Expired(start, later)|
  {
    SubsetSize(Expired(start, time), Expired(start, later));
  }

  lemma {:induction false} BatchFollows(
      start: Table, rows: Table, time: Time, later: Time, purged: set<Id>, batch: set<Id>)
    requires time <= later && rows == start - purged && IsFirst(start, Expired(start, time), |purged|, purged)
    requires IsFirst(rows, Expired(rows, later), BATCH_SIZE, batch)
    ensures IsFirst(start, Expired(start, later), |purged + batch|, purged + batch)
    ensures purged !! batch && batch <= rows.Keys
    ensures |purged + batch| == |purged| + Least(|Expired(start, later)| - |purged|, BATCH_SIZE)
  {
    FirstStaysFirst(start, time, later, purged);
    StillExpired(start, rows, later, purged);
    SameFirst(start, rows, Expired(rows, later), BATCH_SIZE, batch);
    FirstThenFirst(start, Expired(start, later), |purged|, purged, BATCH_SIZE, batch);
    SubsetSize(purged, Expired(start, later));
    assert |Expired(start, later) - purged| == |Expired(start, later)| - |purged|;
    assert |purged + batch| == |purged| + |batch|;
  }

  lemma {:induction false} ProgressMore(
      start: Table, rows: Table, first: Time, time: Time, later: Time, batches: nat, purged: set<Id>, batch: set<Id>)
    requires first <= later && time <= later && Progress(start, rows, first, time, batches, purged)
    requires IsFirst(rows, Expired(rows, later), BATCH_SIZE, batch)
    ensures Progress(start, rows - batch, first, later, batches + 1, purged + batch)
    ensures batch == {} ==> Expired(start, later) <= purged
  {
    BatchFollows(start, rows, time, later, purged, batch);
    GoneTogether(start, purged, batch);
    SubsetSize(Expired(start, first), Expired(start, later));
    if batch == {} {
      FirstOfNone(rows, Expired(rows, later), BATCH_SIZE);
      StillExpired(start, rows, later, purged);
      forall i | i in Expired(start, later) ensures i in purged { assert i !in Expired(start, later) - purged; }
    }
  }

  lemma {:induction false} GoneTogether(start: Table, purged: set<Id>, batch: set<Id>)
    ensures start - purged - batch == start - (purged + batch)
  {
    assert (start - purged - batch).Keys == (start - (purged + batch)).Keys;
  }

  lemma {:induction false} CountsMore(
      start: Table, rows: Table, purged: set<Id>, batch: set<Id>,
      totals: map<Model, nat>, sum: map<Model, nat>)
    requires rows == start - purged && purged !! batch && batch <= rows.Keys
    requires Counts(totals, start, purged) && AddsUp(totals, sum, rows, batch)
    ensures Counts(sum, start, purged + batch)
  {
    forall model: Model ensures CountOf(sum, model) == |OfModel(start, purged + batch, model)| {
      ModelsAdd(start, purged, batch, model);
      assert OfModel(start, batch, model) == OfModel(rows, batch, model);
    }
  }

  /** With distinct expiry times, the linked sessions a batch removes had their logout attempted
      in this iteration or an earlier one if and only if none of them expired after the
      iteration's logout query. */
  lemma {:induction false} BatchAttempted(
      start: Table, startLinks: set<Id>, rows: Table, links: set<Id>,
      asked: Time, deleted: Time, horizon: Time, linked: set<Id>,
      purged: set<Id>, earlier: set<Id>, logouts: set<Id>, batch: set<Id>)
    requires rows == start - purged && links <= startLinks && startLinks - links <= earlier + purged
    requires asked <= deleted && deleted <= horizon && linked == LinkedSessions(start, startLinks, horizon)
    requires DistinctTimes(start, linked) && AllExpiredBy(start, earlier, asked)
    requires IsFirst(rows, LinkedSessions(rows, links, asked), BATCH_SIZE, logouts)
    requires IsFirst(rows, Expired(rows, deleted), BATCH_SIZE, batch)
    ensures batch * linked <= earlier + logouts <==> AllExpiredBy(start, batch * linked, asked)
  {
    var seen := LinkedSessions(rows, links, asked);
    assert seen <= linked;
    assert DistinctTimes(rows, seen) by {
      forall a, b | a in seen && b in seen && a != b ensures At(rows, a) != At(rows, b) {
        assert At(start, a) != At(start, b);
      }
    }
    forall x | x in batch * linked && ExpiredBy(start, x, asked) ensures x in earlier + logouts {
      AttemptedInTime(start, startLinks, rows, links, asked, deleted, purged, earlier, logouts, batch, x);
    }
    forall x | x in earlier + logouts ensures ExpiredBy(start, x, asked) {
      assert x in logouts ==> x in seen;
    }
  }

  lemma {:induction false} AttemptedInTime(
      start: Table, startLinks: set<Id>, rows: Table, links: set<Id>, asked: Time, deleted: Time,
      purged: set<Id>, earlier: set<Id>, logouts: set<Id>, batch: set<Id>, x: Id)
    requires rows == start - purged && startLinks - links <= earlier + purged && asked <= deleted
    requires DistinctTimes(rows, LinkedSessions(rows, links, asked))
    requires IsFirst(rows, LinkedSessions(rows, links, asked), BATCH_SIZE, logouts)
    requires IsFirst(rows, Expired(rows, deleted), BATCH_SIZE, batch)
    requires x in batch && x in startLinks && x.model == OidcStore.Session && ExpiredBy(start, x, asked)
    ensures x in earlier + logouts
  {
    assert x in rows && x !in purged;
    if x in links {
      var seen := LinkedSessions(rows, links, asked);
      DistinctTimesSuffice(rows, Expired(rows, deleted), seen, BATCH_SIZE, x);
      BatchWithinLogouts(rows, Expired(rows, deleted), seen, BATCH_SIZE, batch, logouts, x);
    } else {
      assert x in startLinks - links;
    }
  }

  /** No session of `linked` expires between the two queries of an iteration. */
  ghost predicate NoneBetween(rows: Table, clock: Clock, linked: set<Id>)
    requires Timed(rows, linked)
  {
    forall b, x :: 0 <= b < |clock.asked| && b < |clock.deleted| && x in linked ==>
      At(rows, x) < clock.asked[b] || clock.deleted[b] <= At(rows, x)
  }

  /** When logouts come first: with distinct expiry times exactly where no purged linked session
      was late, as none is where none expires between the two queries of an iteration. */
  ghost predicate LogoutsSettled(rows: Table, clock: Clock, linked: set<Id>, log: seq<Action>)
    requires Timed(rows, linked)
  {
    && (DistinctTimes(rows, linked) ==> (LogoutsFirst(log, linked) <==> NoneLate(rows, log, linked)))
    && (NoneBetween(rows, clock, linked) ==> NoneLate(rows, log, linked))
  }

  /** A link is gone only where its logout was attempted or its session purged, and whatever was
      attempted had expired by the last query for linked sessions. */
  ghost predicate LinkInv(
      start: Table, startLinks: set<Id>, links: set<Id>, clock: Clock, batches: nat,
      attempted: set<Id>, purged: set<Id>)
    requires Ticks(clock) && batches <= MAX_BATCHES_PER_RUN
  {
    && links <= startLinks && startLinks - links <= attempted + purged
    && (if batches == 0 then attempted == {} else AllExpiredBy(start, attempted, clock.asked[batches - 1]))
  }

  /** What holds between the iterations of a run. */
  ghost predicate RunInv(
      start: Table, startLinks: set<Id>, rows: Table, links: set<Id>, clock: Clock,
      batches: nat, purged: set<Id>, totals: map<Model, nat>, log: seq<Action>)
    requires Ticks(clock) && batches <= MAX_BATCHES_PER_RUN
  {
    && Progress(start, rows, clock.deleted[0], LastDelete(clock, batches), batches, purged)
    && Counts(totals, start, purged)
    && LinkInv(start, startLinks, links, clock, batches, Attempted(log), purged) && Purged(log) == purged
    && LogoutsSettled(start, clock, LinkedSessions(start, startLinks, Horizon(clock)), log)
  }

  lemma {:induction false} RunStarts(rows: Table, links: set<Id>, clock: Clock)
    requires Ticks(clock)
    ensures RunInv(rows, links, rows, links, clock, 0, {}, map[], [])
  {
    assert rows - {} == rows;
    assert forall model: Model :: OfModel(rows, {}, model) == {};
  }

  /** What one iteration does: its query for linked sessions, its logouts, its delete. */
  ghost predicate Iterates(
      rows: Table, links: set<Id>, asked: Time, deleted: Time, logouts: set<Id>, links': set<Id>, batch: set<Id>)
  {
    && IsFirst(rows, LinkedSessions(rows, links, asked), BATCH_SIZE, logouts)
    && links' <= links && links - links' <= logouts
    && IsFirst(rows, Expired(rows, deleted), BATCH_SIZE, batch)
  }

  lemma {:induction false} LinkInvMore(
      start: Table, startLinks: set<Id>, rows: Table, links: set<Id>, clock: Clock, batches: nat,
      attempted: set<Id>, purged: set<Id>, logouts: set<Id>, links': set<Id>, batch: set<Id>)
    requires Ticks(clock) && batches < MAX_BATCHES_PER_RUN && rows == start - purged
    requires LinkInv(start, startLinks, links, clock, batches, attempted, purged)
    requires Iterates(rows, links, clock.asked[batches], clock.deleted[batches], logouts, links', batch)
    ensures AllExpiredBy(start, attempted, clock.asked[batches])
    ensures LinkInv(start, startLinks, links' - batch, clock, batches + 1, attempted + logouts, purged + batch)
  {
    LinksMore(startLinks, links, links', attempted, logouts, purged, batch);
    assert batches > 0 ==> InOrder(clock, batches - 1, batches);
    forall x | x in logouts ensures ExpiredBy(start, x, clock.asked[batches]) {
      assert x in LinkedSessions(rows, links, clock.asked[batches]);
    }
  }

  lemma {:induction false} SettledMore(
      start: Table, startLinks: set<Id>, rows: Table, links: set<Id>, clock: Clock, batches: nat, purged: set<Id>,
      log: seq<Action>, logouts: set<Id>, batch: set<Id>)
    requires Ticks(clock) && batches < MAX_BATCHES_PER_RUN && rows == start - purged
    requires links <= startLinks && startLinks - links <= Attempted(log) + purged
    requires AllExpiredBy(start, Attempted(log), clock.asked[batches])
    requires LogoutsSettled(start, clock, LinkedSessions(start, startLinks, Horizon(clock)), log)
    requires IsFirst(rows, LinkedSessions(rows, links, clock.asked[batches]), BATCH_SIZE, logouts)
    requires IsFirst(rows, Expired(rows, clock.deleted[batches]), BATCH_SIZE, batch)
    ensures LogoutsSettled(start, clock, LinkedSessions(start, startLinks, Horizon(clock)),
                           log + [Attempt(logouts)] + [Purge(batch, clock.asked[batches])])
  {
    var asked, deleted, horizon := clock.asked[batches], clock.deleted[batches], Horizon(clock);
    var linked := LinkedSessions(start, startLinks, horizon);
    assert InOrder(clock, batches, MAX_BATCHES_PER_RUN - 1) && InOrder(clock, batches, batches);
    LogMore(start, log, Attempt(logouts), linked);
    LogMore(start, log + [Attempt(logouts)], Purge(batch, asked), linked);
    if DistinctTimes(start, linked) {
      BatchAttempted(start, startLinks, rows, links, asked, deleted, horizon, linked, purged,
                     Attempted(log), logouts, batch);
    }
    if NoneBetween(start, clock, linked) {
      forall x | x in batch * linked ensures ExpiredBy(start, x, asked) {
        assert x in Expired(rows, deleted) && At(start, x) < clock.deleted[batches];
      }
    }
  }

  lemma {:induction false} RunMore(
      start: Table, startLinks: set<Id>, rows: Table, links: set<Id>, clock: Clock,
      batches: nat, purged: set<Id>, totals: map<Model, nat>, log: seq<Action>,
      logouts: set<Id>, links': set<Id>, batch: set<Id>, sum: map<Model, nat>)
    requires Ticks(clock) && batches < MAX_BATCHES_PER_RUN
    requires RunInv(start, startLinks, rows, links, clock, batches, purged, totals, log)
    requires Iterates(rows, links, clock.asked[batches], clock.deleted[batches], logouts, links', batch)
    requires AddsUp(totals, sum, rows, batch)
    ensures RunInv(start, startLinks, rows - batch, links' - batch, clock, batches + 1, purged + batch, sum,
                   log + [Attempt(logouts)] + [Purge(batch, clock.asked[batches])])
    ensures batch == {} ==> Expired(start, LastDelete(clock, batches + 1)) <= purged + batch
  {
    var time, later := LastDelete(clock, batches), clock.deleted[batches];
    assert InOrder(clock, 0, batches) && (batches > 0 ==> InOrder(clock, batches - 1, batches));
    assert Progress(start, rows - batch, clock.deleted[0], later, batches + 1, purged + batch)
        && (batch == {} ==> Expired(start, later) <= purged) by {
      ProgressMore(start, rows, clock.deleted[0], time, later, batches, purged, batch);
    }
    assert Counts(sum, start, purged + batch) by {
      BatchFollows(start, rows, time, later, purged, batch);
      CountsMore(start, rows, purged, batch, totals, sum);
    }
    LinkInvMore(start, startLinks, rows, links, clock, batches, Attempted(log), purged, logouts, links', batch);
    SettledMore(start, startLinks, rows, links, clock, batches, purged, log, logouts, batch);
    LogGrows(log, logouts, batch, clock.asked[batches]);
  }

  lemma {:induction false} LogGrows(log: seq<Action>, logouts: set<Id>, batch: set<Id>, asked: Time)
    ensures var more := log + [Attempt(logouts)] + [Purge(batch, asked)];
            Attempted(more) == Attempted(log) + logouts && Purged(more) == Purged(log) + batch
  {
    LogMore(map[], log, Attempt(logouts), {});
    LogMore(map[], log + [Attempt(logouts)], Purge(batch, asked), {});
  }

  lemma {:induction false} LinksMore(
      startLinks: set<Id>, links: set<Id>, links': set<Id>,
      attempted: set<Id>, logouts: set<Id>, purged: set<Id>, batch: set<Id>)
    requires links <= startLinks && startLinks - links <= attempted + purged
    requires links' <= links && links - links' <= logouts
    ensures links' - batch <= startLinks
    ensures startLinks - (links' - batch) <= (attempted + logouts) + (purged + batch)
  {
    forall x | x in startLinks && x !in links' - batch ensures x in (attempted + logouts) + (purged + batch) {
      if x in links {
        assert x in links' || x in links - links';
      } else {
        assert x in startLinks - links;
      }
    }
  }

  lemma {:induction false} Dropped(all: set<Id>, dropped: set<Id>)
    requires dropped <= all
    ensures all - (all - dropped) == dropped
  {}

  class OidcPurgeService {
    var rows: Table
    var links: set<Id>

    /** Attempts the logout of each of the sessions; one that succeeds drops its link, one that
        fails is only logged. */
    method AttemptEach(sessions: set<Id>) returns (scheduled: nat, ghost attempted: set<Id>)
      requires sessions <= links
      modifies this`links
      ensures attempted == sessions
      ensures links <= old(links) && old(links) - links <= sessions && scheduled == |old(links) - links|
    {
      attempted, scheduled := {}, 0;
      ghost var dropped: set<Id> := {};
      var todo := sessions;
      while todo != {}
        invariant todo <= sessions && attempted == sessions - todo
        invariant dropped <= attempted && links == old(links) - dropped && scheduled == |dropped|
        decreases |todo|
      {
        var id :| id in todo;
        attempted := attempted + {id};
        var succeeded: bool := *;
        if succeeded {
          links, dropped := links - {id}, dropped + {id};
          scheduled := scheduled + 1;
        }
        todo := todo - {id};
      }
      Dropped(old(links), dropped);
    }

    /** Attempts the logout of the first linked expired sessions. */
    method LogoutLinked(now: Time) returns (scheduled: nat, ghost attempted: set<Id>)
      modifies this`links
      ensures IsFirst(rows, LinkedSessions(rows, old(links), now), 500, attempted)
      ensures links <= old(links) && old(links) - links <= attempted && scheduled == |old(links) - links|
    {
      var sessions := SelectFirst(rows, LinkedSessions(rows, links, now), BATCH_SIZE);
      scheduled, attempted := AttemptEach(sessions);
    }

    method PurgeExpiredBatch(now: Time) returns (counts: map<Model, nat>, batchCount: nat, ghost batch: set<Id>)
      modifies this
      ensures IsFirst(old(rows), Expired(old(rows), now), 500, batch)
      ensures rows == old(rows) - batch && links == old(links) - batch
      ensures Counts(counts, old(rows), batch) && batchCount == |batch|
    {
      var chosen := SelectFirst(rows, Expired(rows, now), BATCH_SIZE);
      batch := chosen;
      counts := map model | model in (set i | i in chosen :: i.model) :: |OfModel(rows, chosen, model)|;
      forall model: Model | model !in counts ensures |OfModel(rows, chosen, model)| == 0 {
        assert OfModel(rows, chosen, model) == {};
      }
      batchCount := |chosen|;
      rows, links := rows - chosen, links - chosen;
    }

    /** One pass of the loop, with its query for linked sessions at `asked` and its delete at
        `deleted`. */
    method PurgeOnce(asked: Time, deleted: Time, totals: map<Model, nat>)
      returns (sum: map<Model, nat>, batchCount: nat, ghost logouts: set<Id>, ghost left: set<Id>, ghost batch: set<Id>)
      modifies this
      ensures Iterates(old(rows), old(links), asked, deleted, logouts, left, batch)
      ensures rows == old(rows) - batch && links == left - batch
      ensures AddsUp(totals, sum, old(rows), batch) && batchCount == |batch|
    {
      var scheduled, counts;
      scheduled, logouts := LogoutLinked(asked);
      left := links;
      counts, batchCount, batch := PurgeExpiredBatch(deleted);
      sum := AddCounts(totals, counts);
    }

    /** One more iteration of a run that began with `start` and `startLinks`. */
    method PurgeNext(
        clock: Clock, batches: nat, totals: map<Model, nat>,
        ghost start: Table, ghost startLinks: set<Id>, ghost purged: set<Id>, ghost log: seq<Action>)
      returns (sum: map<Model, nat>, batchCount: nat, ghost purged': set<Id>, ghost log': seq<Action>)
      requires Ticks(clock) && batches < MAX_BATCHES_PER_RUN
      requires RunInv(start, startLinks, rows, links, clock, batches, purged, totals, log)
      modifies this
      ensures RunInv(start, startLinks, rows, links, clock, batches + 1, purged', sum, log')
      ensures batchCount == 0 ==> Expired(start, LastDelete(clock, batches + 1)) <= purged'
    {
      ghost var before, linksBefore := rows, links;
      ghost var logouts, left, batch;
      sum, batchCount, logouts, left, batch := PurgeOnce(clock.asked[batches], clock.deleted[batches], totals);
      RunMore(start, startLinks, before, linksBefore, clock, batches, purged, totals, log, logouts, left, batch, sum);
      purged', log' := purged + batch, log + [Attempt(logouts)] + [Purge(batch, clock.asked[batches])];
    }

    /** Batch after batch until one is empty or the cap is reached. */
    method PurgeBatches(clock: Clock)
      returns (
        totals: map<Model, nat>, batches: nat, batchCount: nat, ghost purged: set<Id>, ghost log: seq<Action>)
      requires Ticks(clock)
      modifies this
      ensures 1 <= batches <= MAX_BATCHES_PER_RUN && (batchCount > 0 ==> batches == MAX_BATCHES_PER_RUN)
      ensures RunInv(old(rows), old(links), rows, links, clock, batches, purged, totals, log)
      ensures batchCount == 0 ==> Expired(old(rows), LastDelete(clock, batches)) <= purged
    {
      totals, batches, batchCount, purged, log := map[], 0, 1, {}, [];
      RunStarts(rows, links, clock);
      while batchCount > 0 && batches < MAX_BATCHES_PER_RUN
        invariant batches <= MAX_BATCHES_PER_RUN && (batches == 0 ==> batchCount > 0)
        invariant RunInv(old(rows), old(links), rows, links, clock, batches, purged, totals, log)
        invariant batchCount == 0 ==> Expired(old(rows), LastDelete(clock, batches)) <= purged
        decreases MAX_BATCHES_PER_RUN - batches
      {
        totals, batchCount, purged, log := PurgeNext(clock, batches, totals, old(rows), old(links), purged, log);
        batches := batches + 1;
      }
    }

    /** A run whose queries happen at the times of `clock` deletes the earliest-expired rows and
        nothing else: all that had expired by its last delete, or as many as fifty batches hold
        where that is less than what had expired by its first. It reports how many of each model.
        With distinct expiry times it attempts each linked session's upstream logout before
        deleting it if and only if none it deletes expired after its iteration's logout query,
        as none does where no linked session expires between the two queries of an iteration. */
    method PurgeExpiredModels(clock: Clock)
      returns (totals: map<Model, nat>, batches: nat, ghost purged: set<Id>, ghost log: seq<Action>)
      requires Ticks(clock)
      modifies this
      ensures 1 <= batches <= 50 && rows == old(rows) - purged && purged == Purged(log)
      ensures IsFirst(old(rows), Expired(old(rows), clock.deleted[batches - 1]), |purged|, purged)
      ensures batches == 50 || purged == Expired(old(rows), clock.deleted[batches - 1])
      ensures Least(|Expired(old(rows), clock.deleted[0])|, 50 * 500) <= |purged| <= 50 * 500
      ensures Counts(totals, old(rows), purged)
      ensures LogoutsSettled(old(rows), clock, LinkedSessions(old(rows), old(links), Horizon(clock)), log)
    {
      var batchCount;
      totals, batches, batchCount, purged, log := PurgeBatches(clock);
      RunEnds(old(rows), old(links), rows, links, clock, batches, purged, totals, log, batchCount);
    }
  }

  lemma {:induction false} RunEnds(
      start: Table, startLinks: set<Id>, rows: Table, links: set<Id>, clock: Clock,
      batches: nat, purged: set<Id>, totals: map<Model, nat>, log: seq<Action>, batchCount: nat)
    requires Ticks(clock) && 1 <= batches <= MAX_BATCHES_PER_RUN
    requires RunInv(start, startLinks, rows, links, clock, batches, purged, totals, log)
    requires if batchCount == 0 then Expired(start, LastDelete(clock, batches)) <= purged
             else batches == MAX_BATCHES_PER_RUN
    ensures rows == start - purged && purged == Purged(log) && Counts(totals, start, purged)
    ensures IsFirst(start, Expired(start, clock.deleted[batches - 1]), |purged|, purged)
    ensures batches == MAX_BATCHES_PER_RUN || purged == Expired(start, clock.deleted[batches - 1])
    ensures Least(|Expired(start, clock.deleted[0])|, MAX_BATCHES_PER_RUN * BATCH_SIZE)
         <= |purged| <= MAX_BATCHES_PER_RUN * BATCH_SIZE
    ensures LogoutsSettled(start, clock, LinkedSessions(start, startLinks, Horizon(clock)), log)
  {
    assert InOrder(clock, 0, batches - 1);
    if batchCount == 0 {
      SubsetSize(Expired(start, clock.deleted[0]), purged);
    }
  }
}
