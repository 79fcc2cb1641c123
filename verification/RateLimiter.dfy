/** The sliding-window rate limiter: a request counts the recorded hits of its bucket, then
    records its own hit as a separate statement, while a pruner and an administrator's reset
    delete hits beside it. Requests interleave freely, so a run is a list of events. */
module RateLimiter {
  import opened Cardinality
  import opened RateLimitKey

  type RequestId = nat

  datatype Hit = Hit(bucket: Bucket, hitAt: int)

  /** What the storage answers for one request. */
  datatype Answer = Answer(totalHits: nat, timeToExpire: nat, isBlocked: bool, timeToBlockExpire: nat)

  /** `Math.ceil(ms / 1000)` */
  function CeilSeconds(ms: nat): nat { (ms + 999) / 1000 }

  /** A request already over its limit is not written again. */
  predicate Recorded(existing: nat, limit: nat) { existing <= limit }

  /** The least number of whole seconds that covers a span. */
  predicate Covers(seconds: nat, ms: nat) { ms <= seconds * 1000 < ms + 1000 }

  /** A request is let through exactly when fewer than `limit` hits were counted, and then its
      own hit is always among those recorded. The answer counts that hit in, and gives times in
      seconds: the window, and for a blocked request the block, which lasts as long as the window
      where no other duration is set. */
  function AnswerFor(existing: nat, ttl: nat, limit: nat, blockDuration: nat): (a: Answer)
    ensures !a.isBlocked <==> existing < limit
    ensures !a.isBlocked ==> Recorded(existing, limit) && a.timeToBlockExpire == 0
    ensures a.totalHits == existing + (if Recorded(existing, limit) then 1 else 0)
    ensures Covers(a.timeToExpire, ttl)
    ensures a.isBlocked ==> Covers(a.timeToBlockExpire, if blockDuration > 0 then blockDuration else ttl)
  {
    var totalHits := if existing > limit then existing else existing + 1;
    var isBlocked := totalHits > limit;
    Answer(totalHits, CeilSeconds(ttl), isBlocked,
           if isBlocked then CeilSeconds(if blockDuration == 0 then ttl else blockDuration) else 0)
  }

  datatype Phase =
    | Begun
    | Counted(existing: nat, turn: nat)
    | Answered(existing: nat, turn: nat, at: int)

  /** `since` is fixed from the caller's clock before the count is issued. */
  datatype Request = Request(bucket: Bucket, ttl: nat, limit: nat, since: int, phase: Phase)

  /** `now`, the hit table and the requests are the system's; the other two only observe a run:
      `steps` numbers the events (a request's `turn` is the number of the event that counted for
      it) and `prunedBelow` is the highest cutoff any pruning has used. */
  datatype State = State(
    now: int, hits: map<RequestId, Hit>, reqs: map<RequestId, Request>, steps: nat, prunedBelow: Cutoff)

  datatype Cutoff = Unpruned | Below(time: int)

  predicate LostToPrune(s: State, hitAt: int) { s.prunedBelow.Below? && hitAt < s.prunedBelow.time }

  datatype Event =
    | Tick(elapsed: nat)
    | Begin(rid: RequestId, bucket: Bucket, ttl: nat, limit: nat)
    | Count(rid: RequestId)
    | Finish(rid: RequestId)
    | Prune
    | Reset(tracker: Bytes)

  function Since(hits: map<RequestId, Hit>, bucket: Bucket, since: int): set<RequestId> {
    set h | h in hits && hits[h].bucket == bucket && hits[h].hitAt >= since
  }

  function PrunedHits(hits: map<RequestId, Hit>, cutoff: int): map<RequestId, Hit> {
    map h | h in hits && !(hits[h].hitAt < cutoff) :: hits[h]
  }

  function WithoutTracker(hits: map<RequestId, Hit>, tracker: Bytes): map<RequestId, Hit> {
    map h | h in hits && hits[h].bucket.tracker != tracker :: hits[h]
  }

  /** One event; an event whose request is not at the right point changes nothing but the numbering. */
  function Step(retention: nat, s: State, e: Event): State {
    var t := match e
      case Tick(elapsed) => s.(now := s.now + elapsed)
      case Begin(rid, bucket, ttl, limit) =>
        if rid in s.reqs then s
        else s.(reqs := s.reqs[rid := Request(bucket, ttl, limit, s.now - ttl, Begun)])
      case Count(rid) =>
        if rid !in s.reqs || !s.reqs[rid].phase.Begun? then s
        else
          var r := s.reqs[rid];
          s.(reqs := s.reqs[rid := r.(phase := Counted(|Since(s.hits, r.bucket, r.since)|, s.steps))])
      case Finish(rid) =>
        if rid !in s.reqs || !s.reqs[rid].phase.Counted? then s
        else
          var r := s.reqs[rid];
          s.(hits := if Recorded(r.phase.existing, r.limit) then s.hits[rid := Hit(r.bucket, s.now)] else s.hits,
             reqs := s.reqs[rid := r.(phase := Answered(r.phase.existing, r.phase.turn, s.now))])
      case Prune =>
        var cutoff := s.now - retention;
        s.(hits := PrunedHits(s.hits, cutoff),
           prunedBelow := if LostToPrune(s, cutoff) then s.prunedBelow else Below(cutoff))
      case Reset(tracker) => s.(hits := WithoutTracker(s.hits, tracker));
    t.(steps := s.steps + 1)
  }

  const EMPTY: State := State(0, map[], map[], 0, Unpruned)

  function Run(retention: nat, es: seq<Event>): State {
    if es == [] then EMPTY else Step(retention, Run(retention, es[..|es| - 1]), es[|es| - 1])
  }

  /** The state just before event `i`. */
  function Before(retention: nat, es: seq<Event>, i: nat): State
    requires i <= |es|
  {
    Run(retention, es[..i])
  }

  lemma {:induction false} BeforeStep(retention: nat, es: seq<Event>, i: nat)
    requires i < |es|
    ensures Before(retention, es, i + 1) == Step(retention, Before(retention, es, i), es[i])
  {
    assert es[..i + 1][..i] == es[..i];
  }

  lemma {:induction false} ClockIsMonotone(retention: nat, es: seq<Event>, i: nat, j: nat)
    requires i <= j <= |es|
    ensures Before(retention, es, i).now <= Before(retention, es, j).now
    ensures Before(retention, es, j).steps == j
    decreases j
  {
    if j == 0 {
    } else {
      BeforeStep(retention, es, j - 1);
      ClockIsMonotone(retention, es, if i < j then i else j - 1, j - 1);
    }
  }

  // ----- pruning ------------------------------------------------------------------------

  /** No pruning reaches into the window of a request that has still to count. */
  ghost predicate PruneSafe(retention: nat, es: seq<Event>) {
    forall i :: 0 <= i < |es| && es[i].Count? ==> CutoffClear(Before(retention, es, i), es[i].rid)
  }

  predicate CutoffClear(s: State, rid: RequestId) {
    rid in s.reqs ==> !LostToPrune(s, s.reqs[rid].since)
  }

  /** Each request counts within `retention - ttl` of fixing its window, as every request does
      whose window is no longer than the retention and whose count is immediate. */
  ghost predicate Prompt(retention: nat, es: seq<Event>) {
    forall i :: 0 <= i < |es| && es[i].Count? ==> PromptAt(retention, Before(retention, es, i), es[i].rid)
  }

  predicate PromptAt(retention: nat, s: State, rid: RequestId) {
    rid in s.reqs ==> s.now - (s.reqs[rid].since + s.reqs[rid].ttl) <= retention - s.reqs[rid].ttl
  }

  lemma {:induction false} CutoffTrailsClock(retention: nat, es: seq<Event>)
    ensures var s := Run(retention, es); s.prunedBelow.Below? ==> s.prunedBelow.time <= s.now - retention
  {
    if es != [] { CutoffTrailsClock(retention, es[..|es| - 1]); }
  }

  lemma {:induction false} PromptIsPruneSafe(retention: nat, es: seq<Event>)
    requires Prompt(retention, es)
    ensures PruneSafe(retention, es)
  {
    forall i | 0 <= i < |es| && es[i].Count? ensures CutoffClear(Before(retention, es, i), es[i].rid) {
      assert PromptAt(retention, Before(retention, es, i), es[i].rid);
      CutoffTrailsClock(retention, es[..i]);
    }
  }

  /** The same run without pruning: every pruning becomes a pause. */
  function WithoutPruning(e: Event): Event { if e == Prune then Tick(0) else e }

  function NeverPruning(es: seq<Event>): (rs: seq<Event>)
    ensures |rs| == |es|
  {
    if es == [] then [] else NeverPruning(es[..|es| - 1]) + [WithoutPruning(es[|es| - 1])]
  }

  /** Two stores give the same requests; one has lost only hits below its cutoff. */
  ghost predicate Agrees(s: State, full: State) {
    && s.now == full.now && s.reqs == full.reqs && s.steps == full.steps
    && (forall h :: h in s.hits ==> h in full.hits && full.hits[h] == s.hits[h])
    && (forall h :: h in full.hits && h !in s.hits ==> LostToPrune(s, full.hits[h].hitAt))
  }

  lemma {:induction false} AgreesStep(retention: nat, s: State, full: State, e: Event)
    requires Agrees(s, full) && (e.Count? ==> CutoffClear(s, e.rid))
    ensures Agrees(Step(retention, s, e), Step(retention, full, WithoutPruning(e)))
  {
    if e.Count? && e.rid in s.reqs {
      var r := s.reqs[e.rid];
      assert Since(s.hits, r.bucket, r.since) == Since(full.hits, r.bucket, r.since);
    }
  }

  lemma {:induction false} PruneAgreement(retention: nat, es: seq<Event>)
    requires PruneSafe(retention, es)
    ensures Agrees(Run(retention, es), Run(retention, NeverPruning(es)))
  {
    if es != [] {
      var n := |es| - 1;
      forall i | 0 <= i < n && es[..n][i].Count? ensures CutoffClear(Before(retention, es[..n], i), es[..n][i].rid) {
        assert es[..n][..i] == es[..i];
      }
      PruneAgreement(retention, es[..n]);
      AgreesStep(retention, Run(retention, es[..n]), Run(retention, NeverPruning(es[..n])), es[n]);
      assert NeverPruning(es)[..n] == NeverPruning(es[..n]);
    }
  }

  /** Pruning that stays clear of open windows never shows: every request gets the answer it
      would have got from the full history. */
  lemma {:induction false} PruningIsInvisible(retention: nat, es: seq<Event>)
    requires PruneSafe(retention, es)
    ensures Run(retention, es).reqs == Run(retention, NeverPruning(es)).reqs
  {
    PruneAgreement(retention, es);
  }

  lemma {:induction false} RunMore(retention: nat, es: seq<Event>, e: Event)
    ensures Run(retention, es + [e]) == Step(retention, Run(retention, es), e)
    ensures NeverPruning(es + [e]) == NeverPruning(es) + [WithoutPruning(e)]
  {
    assert (es + [e])[..|es|] == es;
  }

  /** Every request counts within `delay` of fixing its window. */
  ghost predicate CountsWithin(retention: nat, es: seq<Event>, delay: nat) {
    forall i :: 0 <= i < |es| && es[i].Count? ==> CountsInTime(Before(retention, es, i), es[i].rid, delay)
  }

  predicate CountsInTime(s: State, rid: RequestId, delay: nat) {
    rid in s.reqs ==> s.now - (s.reqs[rid].since + s.reqs[rid].ttl) <= delay
  }

  /** One request has been served and its hit is stored. */
  predicate OneHit(s: State, bucket: Bucket, now: int) {
    s.reqs.Keys == {0} && s.hits == map[0 := Hit(bucket, 0)] && s.now == now
  }

  lemma {:induction false} CountsWithinMore(retention: nat, es: seq<Event>, delay: nat, e: Event)
    requires CountsWithin(retention, es, delay) && (e.Count? ==> CountsInTime(Run(retention, es), e.rid, delay))
    ensures CountsWithin(retention, es + [e], delay)
  {
    var more := es + [e];
    forall i | 0 <= i < |more| && more[i].Count? ensures CountsInTime(Before(retention, more, i), more[i].rid, delay) {
      assert more[..i] == es[..i];
      if i == |es| { assert es[..i] == es; } else { assert CountsInTime(Before(retention, es, i), es[i].rid, delay); }
    }
  }

  lemma {:induction false} FirstRequest(retention: nat, ttl: nat, delay: nat, bucket: Bucket) returns (es: seq<Event>)
    ensures NeverPruning(es) == es && OneHit(Run(retention, es), bucket, 0) && CountsWithin(retention, es, delay)
  {
    var begin := Begin(0, bucket, ttl, 1);
    RunMore(retention, [], begin);
    RunMore(retention, [] + [begin], Count(0));
    CountsWithinMore(retention, [], delay, begin);
    CountsWithinMore(retention, [] + [begin], delay, Count(0));
    var s := Run(retention, [] + [begin] + [Count(0)]);
    assert s.reqs.Keys == {0} && s.reqs[0] == Request(bucket, ttl, 1, 0 - ttl, Counted(0, 1)) by {
      assert Since(map[], bucket, 0 - ttl) == {};
    }
    RunMore(retention, [] + [begin] + [Count(0)], Finish(0));
    CountsWithinMore(retention, [] + [begin] + [Count(0)], delay, Finish(0));
    es := [] + [begin] + [Count(0)] + [Finish(0)];
  }

  /** A second request has fixed a window that holds the first one's hit, and waited. */
  predicate SecondWaits(s: State, bucket: Bucket, ttl: nat, delay: nat) {
    && 1 in s.reqs && s.reqs[1] == Request(bucket, ttl, 1, 0, Begun) && s.now == ttl + delay
    && s.hits == map[0 := Hit(bucket, 0)]
  }

  lemma {:induction false} SecondBegins(retention: nat, s: State, bucket: Bucket, ttl: nat, delay: nat)
    requires OneHit(s, bucket, 0)
    ensures var begun := Step(retention, Step(retention, s, Tick(ttl)), Begin(1, bucket, ttl, 1));
            SecondWaits(Step(retention, begun, Tick(delay)), bucket, ttl, delay)
  {
    assert 1 !in s.reqs.Keys;
  }

  /** One more event that neither counts nor prunes. */
  lemma {:induction false} OneMore(retention: nat, es: seq<Event>, delay: nat, e: Event) returns (more: seq<Event>)
    requires NeverPruning(es) == es && CountsWithin(retention, es, delay) && !e.Count? && e != Prune
    ensures NeverPruning(more) == more && CountsWithin(retention, more, delay)
    ensures Run(retention, more) == Step(retention, Run(retention, es), e)
  {
    RunMore(retention, es, e);
    CountsWithinMore(retention, es, delay, e);
    more := es + [e];
  }

  lemma {:induction false} SecondRequest(retention: nat, ttl: nat, delay: nat, bucket: Bucket)
    returns (es: seq<Event>)
    ensures NeverPruning(es) == es && SecondWaits(Run(retention, es), bucket, ttl, delay)
    ensures CountsWithin(retention, es, delay)
  {
    es := FirstRequest(retention, ttl, delay, bucket);
    SecondBegins(retention, Run(retention, es), bucket, ttl, delay);
    es := OneMore(retention, es, delay, Tick(ttl));
    es := OneMore(retention, es, delay, Begin(1, bucket, ttl, 1));
    es := OneMore(retention, es, delay, Tick(delay));
  }

  lemma {:induction false} CountSees(retention: nat, s: State)
    requires 1 in s.reqs && s.reqs[1].phase.Begun?
    ensures var t := Step(retention, s, Count(1));
            && 1 in t.reqs && t.reqs[1].phase.Counted?
            && t.reqs[1].phase.existing == |Since(s.hits, s.reqs[1].bucket, s.reqs[1].since)|
  {}

  lemma {:induction false} PruningShows(retention: nat, s: State, bucket: Bucket, ttl: nat, delay: nat)
    requires retention < ttl + delay && SecondWaits(s, bucket, ttl, delay)
    ensures CountsInTime(Step(retention, s, Prune), 1, delay)
    ensures Step(retention, Step(retention, s, Prune), Count(1)).reqs
         != Step(retention, Step(retention, s, Tick(0)), Count(1)).reqs
  {
    var pruned, full := Step(retention, s, Prune), Step(retention, s, Tick(0));
    assert pruned.reqs == full.reqs == s.reqs && pruned.hits == map[] && full.hits == s.hits;
    assert Since(pruned.hits, bucket, 0) == {} && Since(full.hits, bucket, 0) == {0};
    CountSees(retention, pruned);
    CountSees(retention, full);
  }

  /** The retention may not be any shorter than the window and the delay before counting
      together: below that some run whose requests all count within the delay shows the pruning,
      even one that handles its requests one at a time. */
  lemma {:induction false} ShortRetentionShows(retention: nat, ttl: nat, delay: nat, bucket: Bucket)
    returns (es: seq<Event>)
    requires retention < ttl + delay
    ensures CountsWithin(retention, es, delay)
    ensures Run(retention, es).reqs != Run(retention, NeverPruning(es)).reqs
  {
    es := SecondRequest(retention, ttl, delay, bucket);
    PruningShows(retention, Run(retention, es), bucket, ttl, delay);
    RunMore(retention, es, Prune);
    RunMore(retention, es + [Prune], Count(1));
    RunMore(retention, es, Tick(0));
    RunMore(retention, es + [Tick(0)], Count(1));
    CountsWithinMore(retention, es, delay, Prune);
    CountsWithinMore(retention, es + [Prune], delay, Count(1));
    es := es + [Prune] + [Count(1)];
  }

  /** A retention that covers the longest window and the delay before counting is long enough. */
  lemma {:induction false} LongRetentionIsInvisible(retention: nat, es: seq<Event>, longest: nat, delay: nat)
    requires CountsWithin(retention, es, delay) && longest + delay <= retention
    requires forall i :: 0 <= i < |es| && es[i].Begin? ==> es[i].ttl <= longest
    ensures Run(retention, es).reqs == Run(retention, NeverPruning(es)).reqs
  {
    forall i | 0 <= i < |es| && es[i].Count? ensures PromptAt(retention, Before(retention, es, i), es[i].rid) {
      var s := Before(retention, es, i);
      assert CountsInTime(s, es[i].rid, delay);
      if es[i].rid in s.reqs { TtlBounded(retention, es[..i], longest, es[i].rid); }
    }
    PromptIsPruneSafe(retention, es);
    PruningIsInvisible(retention, es);
  }

  lemma {:induction false} TtlBounded(retention: nat, es: seq<Event>, longest: nat, r: RequestId)
    requires r in Run(retention, es).reqs
    requires forall i :: 0 <= i < |es| && es[i].Begin? ==> es[i].ttl <= longest
    ensures Run(retention, es).reqs[r].ttl <= longest
  {
    var rest := es[..|es| - 1];
    if r in Run(retention, rest).reqs { TtlBounded(retention, rest, longest, r); }
  }

  // ----- buckets are independent --------------------------------------------------------

  /** The run with every request of another bucket left out. */
  function OnlyBucket(e: Event, bucket: Bucket): Event { if e.Begin? && e.bucket != bucket then Tick(0) else e }

  function OnlyBucketRun(es: seq<Event>, bucket: Bucket): (rs: seq<Event>)
    ensures |rs| == |es|
  {
    if es == [] then [] else OnlyBucketRun(es[..|es| - 1], bucket) + [OnlyBucket(es[|es| - 1], bucket)]
  }

  /** `own` has exactly the bucket's requests and hits of `s`. */
  ghost predicate OwnPart(s: State, own: State, bucket: Bucket) {
    && own.now == s.now && own.steps == s.steps && own.prunedBelow == s.prunedBelow
    && (forall r :: r in own.reqs <==> r in s.reqs && s.reqs[r].bucket == bucket)
    && (forall r :: r in own.reqs ==> own.reqs[r] == s.reqs[r])
    && (forall h :: h in own.hits <==> h in s.hits && s.hits[h].bucket == bucket)
    && (forall h :: h in own.hits ==> own.hits[h] == s.hits[h])
  }

  lemma {:induction false} OwnPartStep(retention: nat, s: State, own: State, bucket: Bucket, e: Event)
    requires OwnPart(s, own, bucket)
    requires e.Begin? && e.rid in s.reqs ==> s.reqs[e.rid].bucket == e.bucket
    requires forall h :: h in s.hits && h in s.reqs ==> s.reqs[h].bucket == s.hits[h].bucket
    ensures OwnPart(Step(retention, s, e), Step(retention, own, OnlyBucket(e, bucket)), bucket)
  {
    match e
    case Count(rid) => OwnPartCount(retention, s, own, bucket, rid);
    case Finish(rid) => OwnPartFinish(retention, s, own, bucket, rid);
    case Begin(rid, b, ttl, limit) => OwnPartBegin(retention, s, own, bucket, e);
    case Tick(elapsed) =>
    case _ => OwnPartDelete(retention, s, own, bucket, e);
  }

  lemma {:induction false} OwnPartBegin(retention: nat, s: State, own: State, bucket: Bucket, e: Event)
    requires OwnPart(s, own, bucket) && e.Begin? && (e.rid in s.reqs ==> s.reqs[e.rid].bucket == e.bucket)
    ensures OwnPart(Step(retention, s, e), Step(retention, own, OnlyBucket(e, bucket)), bucket)
  {}

  lemma {:induction false} OwnPartDelete(retention: nat, s: State, own: State, bucket: Bucket, e: Event)
    requires OwnPart(s, own, bucket) && (e.Prune? || e.Reset?)
    ensures OwnPart(Step(retention, s, e), Step(retention, own, e), bucket)
  {}

  lemma {:induction false} OwnPartCount(retention: nat, s: State, own: State, bucket: Bucket, rid: RequestId)
    requires OwnPart(s, own, bucket)
    ensures OwnPart(Step(retention, s, Count(rid)), Step(retention, own, Count(rid)), bucket)
  {
    if rid in own.reqs {
      var r := own.reqs[rid];
      assert Since(s.hits, r.bucket, r.since) == Since(own.hits, r.bucket, r.since);
    }
  }

  lemma {:induction false} OwnPartFinish(retention: nat, s: State, own: State, bucket: Bucket, rid: RequestId)
    requires OwnPart(s, own, bucket)
    requires forall h :: h in s.hits && h in s.reqs ==> s.reqs[h].bucket == s.hits[h].bucket
    ensures OwnPart(Step(retention, s, Finish(rid)), Step(retention, own, Finish(rid)), bucket)
  {}

  /** A request id is used for one bucket only. */
  ghost predicate OwnIds(es: seq<Event>) {
    forall i, j :: 0 <= i < j < |es| && es[i].Begin? && es[j].Begin? && es[i].rid == es[j].rid ==>
      es[i].bucket == es[j].bucket
  }

  lemma {:induction false} RequestBegan(retention: nat, es: seq<Event>, r: RequestId)
    requires r in Run(retention, es).reqs
    ensures exists i :: 0 <= i < |es| && es[i].Begin? && es[i].rid == r
                        && es[i].bucket == Run(retention, es).reqs[r].bucket
  {
    var n := |es| - 1;
    var rest := es[..n];
    if r in Run(retention, rest).reqs {
      RequestBegan(retention, rest, r);
      var i :| 0 <= i < |rest| && rest[i].Begin? && rest[i].rid == r
               && rest[i].bucket == Run(retention, rest).reqs[r].bucket;
      assert es[i] == rest[i];
    } else {
      assert es[n].Begin? && es[n].rid == r;
    }
  }

  lemma {:induction false} HitsMatchRequests(retention: nat, es: seq<Event>)
    ensures forall h :: h in Run(retention, es).hits && h in Run(retention, es).reqs ==>
              Run(retention, es).reqs[h].bucket == Run(retention, es).hits[h].bucket
    ensures forall h :: h in Run(retention, es).hits ==> h in Run(retention, es).reqs
  {
    if es != [] { HitsMatchRequests(retention, es[..|es| - 1]); }
  }

  /** Buckets are independent: the requests of a bucket get the answers they would get if no
      request of any other bucket, of the same caller's other routes included, had ever come. */
  lemma {:induction false} BucketsAreIndependent(retention: nat, es: seq<Event>, bucket: Bucket)
    requires OwnIds(es)
    ensures OwnPart(Run(retention, es), Run(retention, OnlyBucketRun(es, bucket)), bucket)
  {
    if es != [] {
      var n := |es| - 1;
      var s, e := Run(retention, es[..n]), es[n];
      BucketsAreIndependent(retention, es[..n], bucket);
      HitsMatchRequests(retention, es[..n]);
      if e.Begin? && e.rid in s.reqs {
        RequestBegan(retention, es[..n], e.rid);
        var i :| 0 <= i < n && es[..n][i].Begin? && es[..n][i].rid == e.rid
                 && es[..n][i].bucket == s.reqs[e.rid].bucket;
        assert es[i] == es[..n][i];
      }
      OwnPartStep(retention, s, Run(retention, OnlyBucketRun(es[..n], bucket)), bucket, e);
      assert OnlyBucketRun(es, bucket)[..n] == OnlyBucketRun(es[..n], bucket);
    }
  }

  // ----- the bound on admissions --------------------------------------------------------

  function InFlight(s: State, bucket: Bucket): set<RequestId> {
    set r | r in s.reqs && s.reqs[r].bucket == bucket && !s.reqs[r].phase.Answered?
  }

  ghost predicate AtMostInFlight(retention: nat, es: seq<Event>, bucket: Bucket, c: nat) {
    forall i :: 0 <= i <= |es| ==> |InFlight(Before(retention, es, i), bucket)| <= c
  }

  predicate Admitted(r: Request) {
    r.phase.Answered? && r.phase.existing < r.limit
  }

  /** The requests of a bucket let through with a hit recorded in the closed window [from, to]. */
  function AdmittedWithin(s: State, bucket: Bucket, from: int, to: int): set<RequestId> {
    set r | r in s.reqs && s.reqs[r].bucket == bucket && Admitted(s.reqs[r])
            && from <= s.reqs[r].phase.at <= to
  }

  /** No administrator clears the tracker's hits within the window. */
  ghost predicate NoResetWithin(retention: nat, es: seq<Event>, tracker: Bytes, from: int, to: int) {
    forall i :: 0 <= i < |es| && es[i] == Reset(tracker) ==>
      Before(retention, es, i).now < from || to < Before(retention, es, i).now
  }

  /** No pruning had reached into the request's window when it counted. */
  ghost predicate ClearAtCount(retention: nat, es: seq<Event>, r: RequestId) {
    var s := Run(retention, es);
    r in s.reqs && !s.reqs[r].phase.Begun? && s.reqs[r].phase.turn < |es| ==>
      CutoffClear(Before(retention, es, s.reqs[r].phase.turn), r)
  }

  /** A request's count comes no later than its answer. */
  lemma {:induction false} CountBeforeAnswer(retention: nat, es: seq<Event>, r: RequestId)
    requires r in Run(retention, es).reqs && !Run(retention, es).reqs[r].phase.Begun?
    ensures var q := Run(retention, es).reqs[r];
            && q.phase.turn < |es|
            && Before(retention, es, q.phase.turn).now
               <= (if q.phase.Answered? then q.phase.at else Run(retention, es).now)
  {
    var n := |es| - 1;
    var s, q := Run(retention, es[..n]), Run(retention, es).reqs[r];
    ClockIsMonotone(retention, es, 0, n);
    if r in s.reqs && !s.reqs[r].phase.Begun? {
      CountBeforeAnswer(retention, es[..n], r);
      assert es[..n][..q.phase.turn] == es[..q.phase.turn];
    }
  }

  /** How a request that has counted by event `n` stood at an earlier event `i`: already past
      its count, or, if that event is its own count, about to count the hits then stored. */
  lemma {:induction false} LookBack(retention: nat, es: seq<Event>, i: nat, n: nat, r: RequestId)
    requires i <= n <= |es|
    requires r in Before(retention, es, n).reqs && !Before(retention, es, n).reqs[r].phase.Begun?
    ensures var q, past := Before(retention, es, n).reqs[r], Before(retention, es, i);
            && q.phase.turn < n
            && (q.phase.turn < i ==>
                  && r in past.reqs && past.reqs[r].bucket == q.bucket
                  && (past.reqs[r] == q || past.reqs[r].phase.Counted?))
            && (q.phase.turn == i ==>
                  && es[i] == Count(r)
                  && r in past.reqs && past.reqs[r] == q.(phase := Begun)
                  && q.phase.existing == |Since(past.hits, q.bucket, q.since)|)
    decreases n
  {
    if n > 0 {
      BeforeStep(retention, es, n - 1);
      ClockIsMonotone(retention, es, 0, n - 1);
      var prior := Before(retention, es, n - 1);
      if r in prior.reqs && !prior.reqs[r].phase.Begun? {
        LookBack(retention, es, if i < n then i else n - 1, n - 1, r);
      }
    }
  }

  ghost predicate LostToReset(retention: nat, es: seq<Event>, tracker: Bytes, hitAt: int) {
    exists j :: 0 <= j < |es| && es[j] == Reset(tracker) && hitAt <= Before(retention, es, j).now
  }

  /** A recorded hit stays stored until a pruning or a reset takes it, and no request is answered
      before its window's end. */
  ghost predicate HitAccounted(retention: nat, es: seq<Event>, r: RequestId)
    requires r in Run(retention, es).reqs
  {
    var s := Run(retention, es);
    var q := s.reqs[r];
    && q.since + q.ttl <= s.now
    && (q.phase.Answered? ==> q.since + q.ttl <= q.phase.at <= s.now)
    && (q.phase.Answered? && Recorded(q.phase.existing, q.limit) ==>
          || (r in s.hits && s.hits[r] == Hit(q.bucket, q.phase.at))
          || LostToPrune(s, q.phase.at)
          || LostToReset(retention, es, q.bucket.tracker, q.phase.at))
  }

  lemma {:induction false} HitsAccounted(retention: nat, es: seq<Event>, r: RequestId)
    requires r in Run(retention, es).reqs
    ensures HitAccounted(retention, es, r)
  {
    var n := |es| - 1;
    var s, e := Run(retention, es[..n]), es[n];
    if r in s.reqs {
      HitsAccounted(retention, es[..n], r);
      var q := s.reqs[r];
      if q.phase.Answered? {
        HitStep(retention, s, e, r);
        if LostToReset(retention, es[..n], q.bucket.tracker, q.phase.at) {
          ResetsStay(retention, es, q.bucket.tracker, q.phase.at);
        } else if e == Reset(q.bucket.tracker) {
          assert q.phase.at <= Before(retention, es, n).now;
        }
      }
    }
  }

  lemma {:induction false} ResetsStay(retention: nat, es: seq<Event>, tracker: Bytes, hitAt: int)
    requires es != [] && LostToReset(retention, es[..|es| - 1], tracker, hitAt)
    ensures LostToReset(retention, es, tracker, hitAt)
  {
    var rest := es[..|es| - 1];
    var j :| 0 <= j < |rest| && rest[j] == Reset(tracker) && hitAt <= Before(retention, rest, j).now;
    assert rest[..j] == es[..j] && es[j] == Reset(tracker) && hitAt <= Before(retention, es, j).now;
  }

  /** One event leaves a recorded hit alone, unless it prunes it or resets its tracker. */
  lemma {:induction false} HitStep(retention: nat, s: State, e: Event, r: RequestId)
    requires r in s.reqs && s.reqs[r].phase.Answered?
    ensures var q, t := s.reqs[r], Step(retention, s, e);
            && r in t.reqs && t.reqs[r] == q
            && (LostToPrune(s, q.phase.at) ==> LostToPrune(t, q.phase.at))
            && (r in s.hits && s.hits[r] == Hit(q.bucket, q.phase.at) ==>
                  || (r in t.hits && t.hits[r] == s.hits[r])
                  || LostToPrune(t, q.phase.at)
                  || e == Reset(q.bucket.tracker))
  {
    match e
    case Prune =>
    case Finish(rid) =>
    case Reset(tracker) =>
    case _ =>
  }

  /** Every other admitted request was in flight at the last count or was counted by it. */
  lemma {:induction false} AdmittedEarlier(
      retention: nat, es: seq<Event>, bucket: Bucket, from: int, to: int, last: RequestId, a: RequestId)
    requires ClearAtCount(retention, es, last) && NoResetWithin(retention, es, bucket.tracker, from, to)
    requires last != a
    requires last in AdmittedWithin(Run(retention, es), bucket, from, to)
    requires a in AdmittedWithin(Run(retention, es), bucket, from, to)
    requires Run(retention, es).reqs[a].phase.turn <= Run(retention, es).reqs[last].phase.turn < |es|
    requires to - from <= Run(retention, es).reqs[last].ttl
    ensures var q := Run(retention, es).reqs[last];
            var past := Before(retention, es, q.phase.turn);
            a in InFlight(past, bucket) + Since(past.hits, bucket, q.since)
  {
    assert es[..|es|] == es;
    var q, p := Run(retention, es).reqs[last], Run(retention, es).reqs[a];
    var i := q.phase.turn;
    LookBack(retention, es, i, |es|, last);
    LookBack(retention, es, i, |es|, a);
    HitsAccounted(retention, es, last);
    if Before(retention, es, i).reqs[a] == p {
      HitsAccounted(retention, es[..i], a);
      assert !LostToReset(retention, es[..i], bucket.tracker, p.phase.at) by {
        CountBeforeAnswer(retention, es, last);
        forall j | 0 <= j < i && es[..i][j] == Reset(bucket.tracker)
          ensures Before(retention, es[..i], j).now < p.phase.at
        {
          assert es[..i][..j] == es[..j] && es[j] == Reset(bucket.tracker);
          ClockIsMonotone(retention, es, j, i);
        }
      }
    }
  }

  ghost predicate CountedLast(s: State, rs: set<RequestId>, last: RequestId) {
    && last in rs && last in s.reqs && s.reqs[last].phase.Answered?
    && forall r :: r in rs && r in s.reqs && s.reqs[r].phase.Answered? ==>
         s.reqs[r].phase.turn <= s.reqs[last].phase.turn
  }

  /** With at most `c` requests of a bucket in flight at once, the requests it lets through in
      any closed window no longer than the ttl of the one that counted last number at most that
      request's limit plus `c - 1`. */
  lemma {:induction false} WindowBound(
      retention: nat, es: seq<Event>, bucket: Bucket, c: nat, from: int, to: int, last: RequestId)
    requires AtMostInFlight(retention, es, bucket, c) && ClearAtCount(retention, es, last)
    requires NoResetWithin(retention, es, bucket.tracker, from, to)
    requires CountedLast(Run(retention, es), AdmittedWithin(Run(retention, es), bucket, from, to), last)
    requires to - from <= Run(retention, es).reqs[last].ttl
    ensures |AdmittedWithin(Run(retention, es), bucket, from, to)| <= Run(retention, es).reqs[last].limit + c - 1
  {
    assert es[..|es|] == es;
    var admitted, q := AdmittedWithin(Run(retention, es), bucket, from, to), Run(retention, es).reqs[last];
    LookBack(retention, es, 0, |es|, last);
    LookBack(retention, es, q.phase.turn, |es|, last);
    var past := Before(retention, es, q.phase.turn);
    var flying, seen := InFlight(past, bucket), Since(past.hits, bucket, q.since);
    forall a | a in admitted - {last} ensures a in flying + seen {
      AdmittedEarlier(retention, es, bucket, from, to, last, a);
    }
    CountAround(admitted, flying, seen, last);
  }

  lemma {:induction false} CountAround<T>(all: set<T>, flying: set<T>, seen: set<T>, last: T)
    requires all - {last} <= flying + seen && last in flying && last in all
    ensures |all| <= |flying| + |seen|
  {
    SubsetSize(all - {last}, (flying - {last}) + seen);
    UnionSize(flying - {last}, seen);
  }

  lemma {:induction false} LastToCount(s: State, rs: set<RequestId>) returns (last: RequestId)
    requires rs != {} && forall r :: r in rs ==> r in s.reqs && s.reqs[r].phase.Answered?
    ensures CountedLast(s, rs, last)
  {
    last :| last in rs;
    if rs != {last} {
      assert rs - {last} != {};
      var other := LastToCount(s, rs - {last});
      if s.reqs[last].phase.turn < s.reqs[other].phase.turn { last := other; }
    }
  }

  ghost predicate SharedSettings(es: seq<Event>, bucket: Bucket, ttl: nat, limit: nat) {
    forall i :: 0 <= i < |es| && es[i].Begin? && es[i].bucket == bucket ==> es[i].ttl == ttl && es[i].limit == limit
  }

  /** The bound where the bucket's requests share one ttl and one limit; requests handled one at
      a time (`c == 1`) never exceed the limit. */
  lemma {:induction false} SharedLimitBound(
      retention: nat, es: seq<Event>, bucket: Bucket, c: nat, ttl: nat, limit: nat, from: int)
    requires SharedSettings(es, bucket, ttl, limit)
    requires AtMostInFlight(retention, es, bucket, c)
    requires NoResetWithin(retention, es, bucket.tracker, from, from + ttl)
    requires forall r :: r in AdmittedWithin(Run(retention, es), bucket, from, from + ttl) ==>
               ClearAtCount(retention, es, r)
    ensures var n := |AdmittedWithin(Run(retention, es), bucket, from, from + ttl)|;
            n == 0 || n <= limit + c - 1
  {
    var admitted := AdmittedWithin(Run(retention, es), bucket, from, from + ttl);
    if admitted != {} {
      var last := LastToCount(Run(retention, es), admitted);
      SettingsKept(retention, es, bucket, ttl, limit, last);
      WindowBound(retention, es, bucket, c, from, from + ttl, last);
    }
  }

  /** Prunings that stay clear of every window still to be counted are clear at each count. */
  lemma {:induction false} PruneSafeIsClear(retention: nat, es: seq<Event>, r: RequestId)
    requires PruneSafe(retention, es)
    ensures ClearAtCount(retention, es, r)
  {
    var s := Run(retention, es);
    if r in s.reqs && !s.reqs[r].phase.Begun? {
      assert es[..|es|] == es;
      LookBack(retention, es, 0, |es|, r);
      LookBack(retention, es, s.reqs[r].phase.turn, |es|, r);
    }
  }

  /** A retention that covers each window and the delay before its count is all the bound asks of
      prunings. */
  lemma {:induction false} PromptBound(
      retention: nat, es: seq<Event>, bucket: Bucket, c: nat, ttl: nat, limit: nat, from: int)
    requires Prompt(retention, es) && SharedSettings(es, bucket, ttl, limit)
    requires AtMostInFlight(retention, es, bucket, c)
    requires NoResetWithin(retention, es, bucket.tracker, from, from + ttl)
    ensures var n := |AdmittedWithin(Run(retention, es), bucket, from, from + ttl)|;
            n == 0 || n <= limit + c - 1
  {
    PromptIsPruneSafe(retention, es);
    forall r | r in AdmittedWithin(Run(retention, es), bucket, from, from + ttl)
      ensures ClearAtCount(retention, es, r)
    {
      PruneSafeIsClear(retention, es, r);
    }
    SharedLimitBound(retention, es, bucket, c, ttl, limit, from);
  }

  lemma {:induction false} SettingsKept(
      retention: nat, es: seq<Event>, bucket: Bucket, ttl: nat, limit: nat, r: RequestId)
    requires r in Run(retention, es).reqs && Run(retention, es).reqs[r].bucket == bucket
    requires SharedSettings(es, bucket, ttl, limit)
    ensures Run(retention, es).reqs[r].ttl == ttl && Run(retention, es).reqs[r].limit == limit
  {
    var rest := es[..|es| - 1];
    if r in Run(retention, rest).reqs { SettingsKept(retention, rest, bucket, ttl, limit, r); }
  }

  // ----- the bound is reached -----------------------------------------------------------

  /** Requests 0 to `a` are answered, the next up to `b` have counted, the next up to `e` have begun. */
  ghost predicate Shape(s: State, bucket: Bucket, ttl: nat, limit: nat, a: nat, b: nat, e: nat) {
    && a <= b <= e && s.now == 0
    && (forall r: RequestId :: r in s.reqs <==> r < e)
    && (forall r: RequestId :: r in s.hits <==> r < a)
    && (forall r :: r in s.hits ==> s.hits[r] == Hit(bucket, 0))
    && (forall r :: r in s.reqs ==> ShapeAt(s.reqs[r], bucket, ttl, limit, a, b, r))
  }

  ghost predicate ShapeAt(q: Request, bucket: Bucket, ttl: nat, limit: nat, a: nat, b: nat, r: RequestId) {
    && q.bucket == bucket && q.ttl == ttl && q.limit == limit && q.since == 0 - ttl
    && (if r < a then q.phase.Answered? && q.phase.existing < limit && q.phase.at == 0
        else if r < b then q.phase.Counted? && q.phase.existing < limit
        else q.phase.Begun?)
  }

  lemma {:induction false} RangeSize(rs: set<RequestId>, a: nat, e: nat)
    requires a <= e && forall r: RequestId :: r in rs <==> a <= r < e
    ensures |rs| == e - a
  {
    if a == e {
      assert rs == {};
    } else {
      RangeSize(rs - {a}, a + 1, e);
    }
  }

  predicate Fits(next: Event, bucket: Bucket, ttl: nat, limit: nat, c: nat, a: nat, b: nat, e: nat) {
    || (next == Begin(e, bucket, ttl, limit) && e - a < c)
    || (next == Count(b) && b < e && a < limit)
    || (next == Finish(a) && a < b)
  }

  ghost predicate ShapeAfter(s: State, next: Event, bucket: Bucket, ttl: nat, limit: nat, a: nat, b: nat, e: nat) {
    match next
    case Begin(_, _, _, _) => Shape(s, bucket, ttl, limit, a, b, e + 1)
    case Count(_) => Shape(s, bucket, ttl, limit, a, b + 1, e)
    case _ => Shape(s, bucket, ttl, limit, a + 1, b, e)
  }

  lemma {:induction false} ShapeMoves(
      retention: nat, s: State, bucket: Bucket, ttl: nat, limit: nat, c: nat, a: nat, b: nat, e: nat, next: Event)
    requires Shape(s, bucket, ttl, limit, a, b, e) && Fits(next, bucket, ttl, limit, c, a, b, e)
    ensures ShapeAfter(Step(retention, s, next), next, bucket, ttl, limit, a, b, e)
  {
    if next.Count? { ShapeCounts(retention, s, bucket, ttl, limit, a, b, e); }
  }

  lemma {:induction false} ShapeCounts(
      retention: nat, s: State, bucket: Bucket, ttl: nat, limit: nat, a: nat, b: nat, e: nat)
    requires Shape(s, bucket, ttl, limit, a, b, e) && b < e && a < limit
    ensures Shape(Step(retention, s, Count(b)), bucket, ttl, limit, a, b + 1, e)
  {
    RangeSize(Since(s.hits, bucket, 0 - ttl), 0, a);
  }

  lemma {:induction false} ShapeFlying(s: State, bucket: Bucket, ttl: nat, limit: nat, a: nat, b: nat, e: nat)
    requires Shape(s, bucket, ttl, limit, a, b, e)
    ensures |InFlight(s, bucket)| == e - a
  {
    forall r: RequestId ensures r in InFlight(s, bucket) <==> a <= r < e {
      if r in s.reqs { assert ShapeAt(s.reqs[r], bucket, ttl, limit, a, b, r); }
    }
    RangeSize(InFlight(s, bucket), a, e);
  }

  /** A run with the promised load, settings and no deletions, and what it has reached. */
  ghost predicate Loaded(
      retention: nat, es: seq<Event>, bucket: Bucket, ttl: nat, limit: nat, c: nat, a: nat, b: nat, e: nat) {
    && Shape(Run(retention, es), bucket, ttl, limit, a, b, e)
    && AtMostInFlight(retention, es, bucket, c) && SharedSettings(es, bucket, ttl, limit)
    && forall i :: 0 <= i < |es| ==> !es[i].Prune? && !es[i].Reset?
  }

  lemma {:induction false} LoadedMore(
      retention: nat, es: seq<Event>, bucket: Bucket, ttl: nat, limit: nat, c: nat, a: nat, b: nat, e: nat, next: Event)
    returns (es': seq<Event>)
    requires Loaded(retention, es, bucket, ttl, limit, c, a, b, e) && Fits(next, bucket, ttl, limit, c, a, b, e)
    ensures next.Begin? ==> Loaded(retention, es', bucket, ttl, limit, c, a, b, e + 1)
    ensures next.Count? ==> Loaded(retention, es', bucket, ttl, limit, c, a, b + 1, e)
    ensures next.Finish? ==> Loaded(retention, es', bucket, ttl, limit, c, a + 1, b, e)
  {
    es' := es + [next];
    RunMore(retention, es, next);
    ShapeMoves(retention, Run(retention, es), bucket, ttl, limit, c, a, b, e, next);
    var a', b' := if next.Finish? then a + 1 else a, if next.Count? then b + 1 else b;
    var e' := if next.Begin? then e + 1 else e;
    StaysLoaded(retention, es, bucket, ttl, limit, c, a, b, e, next, a', b', e');
  }

  lemma {:induction false} StaysLoaded(
      retention: nat, es: seq<Event>, bucket: Bucket, ttl: nat, limit: nat, c: nat, a: nat, b: nat, e: nat,
      next: Event, a': nat, b': nat, e': nat)
    requires Loaded(retention, es, bucket, ttl, limit, c, a, b, e) && Fits(next, bucket, ttl, limit, c, a, b, e)
    requires Shape(Run(retention, es + [next]), bucket, ttl, limit, a', b', e')
    requires e' - a' <= e - a || e' - a' <= c
    ensures Loaded(retention, es + [next], bucket, ttl, limit, c, a', b', e')
  {
    assert |InFlight(Run(retention, es), bucket)| <= c by {
      assert es[..|es|] == es && |InFlight(Before(retention, es, |es|), bucket)| <= c;
    }
    ShapeFlying(Run(retention, es), bucket, ttl, limit, a, b, e);
    ShapeFlying(Run(retention, es + [next]), bucket, ttl, limit, a', b', e');
    AtMostMore(retention, es, bucket, c, next);
  }

  lemma {:induction false} AtMostMore(retention: nat, es: seq<Event>, bucket: Bucket, c: nat, next: Event)
    requires AtMostInFlight(retention, es, bucket, c) && |InFlight(Run(retention, es + [next]), bucket)| <= c
    ensures AtMostInFlight(retention, es + [next], bucket, c)
  {
    var more := es + [next];
    forall i | 0 <= i <= |more| ensures |InFlight(Before(retention, more, i), bucket)| <= c {
      if i < |more| {
        assert more[..i] == es[..i];
        assert |InFlight(Before(retention, es, i), bucket)| <= c;
      } else {
        assert more[..i] == more;
      }
    }
  }

  lemma {:induction false} NothingLoaded(retention: nat, bucket: Bucket, ttl: nat, limit: nat, c: nat)
    ensures Loaded(retention, [], bucket, ttl, limit, c, 0, 0, 0)
  {
    assert InFlight(EMPTY, bucket) == {};
  }

  /** Requests served one at a time. */
  lemma {:induction false} ServeAlone(retention: nat, bucket: Bucket, ttl: nat, limit: nat, c: nat, n: nat)
    returns (es: seq<Event>)
    requires n < limit && c >= 1
    ensures Loaded(retention, es, bucket, ttl, limit, c, n, n, n)
  {
    es := [];
    NothingLoaded(retention, bucket, ttl, limit, c);
    for k := 0 to n
      invariant Loaded(retention, es, bucket, ttl, limit, c, k, k, k)
    {
      es := LoadedMore(retention, es, bucket, ttl, limit, c, k, k, k, Begin(k, bucket, ttl, limit));
      es := LoadedMore(retention, es, bucket, ttl, limit, c, k, k, k + 1, Count(k));
      es := LoadedMore(retention, es, bucket, ttl, limit, c, k, k + 1, k + 1, Finish(k));
    }
  }

  /** Then `c` requests that all count before any of them is recorded. */
  lemma {:induction false} ServeTogether(
      retention: nat, before: seq<Event>, bucket: Bucket, ttl: nat, limit: nat, c: nat, l: nat)
    returns (es: seq<Event>)
    requires l < limit && Loaded(retention, before, bucket, ttl, limit, c, l, l, l)
    ensures Loaded(retention, es, bucket, ttl, limit, c, l + c, l + c, l + c)
  {
    es := CountTogether(retention, before, bucket, ttl, limit, c, l);
    for a := l to l + c
      invariant Loaded(retention, es, bucket, ttl, limit, c, a, l + c, l + c)
    {
      es := LoadedMore(retention, es, bucket, ttl, limit, c, a, l + c, l + c, Finish(a));
    }
  }

  lemma {:induction false} CountTogether(
      retention: nat, before: seq<Event>, bucket: Bucket, ttl: nat, limit: nat, c: nat, l: nat)
    returns (es: seq<Event>)
    requires l < limit && Loaded(retention, before, bucket, ttl, limit, c, l, l, l)
    ensures Loaded(retention, es, bucket, ttl, limit, c, l, l + c, l + c)
  {
    es := before;
    for e := l to l + c
      invariant Loaded(retention, es, bucket, ttl, limit, c, l, l, e)
    {
      es := LoadedMore(retention, es, bucket, ttl, limit, c, l, l, e, Begin(e, bucket, ttl, limit));
    }
    for b := l to l + c
      invariant Loaded(retention, es, bucket, ttl, limit, c, l, b, l + c)
    {
      es := LoadedMore(retention, es, bucket, ttl, limit, c, l, b, l + c, Count(b));
    }
  }

  /** The bound cannot be lowered: for every limit and every number of requests in flight some
      run lets exactly `limit + c - 1` requests through one window. */
  lemma {:induction false} BoundIsReached(retention: nat, bucket: Bucket, ttl: nat, limit: nat, c: nat)
    returns (es: seq<Event>)
    requires limit >= 1 && c >= 1
    ensures AtMostInFlight(retention, es, bucket, c) && SharedSettings(es, bucket, ttl, limit)
    ensures PruneSafe(retention, es) && NoResetWithin(retention, es, bucket.tracker, 0, ttl)
    ensures |AdmittedWithin(Run(retention, es), bucket, 0, ttl)| == limit + c - 1
  {
    var before := ServeAlone(retention, bucket, ttl, limit, c, limit - 1);
    es := ServeTogether(retention, before, bucket, ttl, limit, c, limit - 1);
    NoPruneIsSafe(retention, es);
    AllAdmitted(Run(retention, es), bucket, ttl, limit, limit - 1 + c);
  }

  lemma {:induction false} AllAdmitted(s: State, bucket: Bucket, ttl: nat, limit: nat, n: nat)
    requires Shape(s, bucket, ttl, limit, n, n, n)
    ensures |AdmittedWithin(s, bucket, 0, ttl)| == n
  {
    forall r: RequestId ensures r in AdmittedWithin(s, bucket, 0, ttl) <==> 0 <= r < n {
      if r in s.reqs { assert ShapeAt(s.reqs[r], bucket, ttl, limit, n, n, r); }
    }
    RangeSize(AdmittedWithin(s, bucket, 0, ttl), 0, n);
  }

  lemma {:induction false} NoPruneIsSafe(retention: nat, es: seq<Event>)
    requires forall i :: 0 <= i < |es| ==> !es[i].Prune? && !es[i].Reset?
    ensures PruneSafe(retention, es)
  {
    forall i | 0 <= i < |es| && es[i].Count? ensures CutoffClear(Before(retention, es, i), es[i].rid) {
      NeverPruned(retention, es[..i]);
    }
  }

  lemma {:induction false} NeverPruned(retention: nat, es: seq<Event>)
    requires forall i :: 0 <= i < |es| ==> !es[i].Prune? && !es[i].Reset?
    ensures Run(retention, es).prunedBelow.Unpruned?
  {
    if es != [] { NeverPruned(retention, es[..|es| - 1]); }
  }

  // ----- the store as the service drives it ---------------------------------------------

  /** `RATE_LIMIT_HIT_RETENTION_MINUTES`, or five minutes where it is not a positive number. */
  function RetentionMs(configured: int): nat {
    (if configured > 0 then configured else 5) * 60 * 1000
  }

  lemma {:induction false} OneMoreSince(
      hits: map<RequestId, Hit>, bucket: Bucket, since: int, id: RequestId, now: int)
    requires id !in hits && since <= now
    ensures |Since(hits[id := Hit(bucket, now)], bucket, since)| == |Since(hits, bucket, since)| + 1
  {
    assert Since(hits[id := Hit(bucket, now)], bucket, since) == Since(hits, bucket, since) + {id};
  }

  class RateLimitStorage {
    var hits: map<RequestId, Hit>
    var nextId: RequestId

    ghost predicate Valid()
      reads this
    {
      forall h :: h in hits ==> h < nextId
    }

    constructor ()
      ensures Valid() && hits == map[]
    {
      hits, nextId := map[], 0;
    }

    method Increment(key: Bytes, ttl: nat, limit: nat, blockDuration: nat, now: int)
      returns (answer: Parsed<Answer>)
      requires Valid()
      modifies this
      ensures Valid()
      ensures ParseKey(key).Malformed? ==> answer.Malformed? && hits == old(hits)
      ensures ParseKey(key).Ok? ==>
        var bucket := ParseKey(key).value;
        var existing := |Since(old(hits), bucket, now - ttl)|;
        && answer == Ok(AnswerFor(existing, ttl, limit, blockDuration))
        && answer.value.totalHits == |Since(hits, bucket, now - ttl)|
        && hits == (if existing <= limit then old(hits)[old(nextId) := Hit(bucket, now)] else old(hits))
    {
      var parsed := ParseKey(key);
      if parsed.Malformed? {
        return Malformed;
      }
      var existing := |Since(hits, parsed.value, now - ttl)|;
      if existing <= limit {
        OneMoreSince(hits, parsed.value, now - ttl, nextId, now);
        hits := hits[nextId := Hit(parsed.value, now)];
        nextId := nextId + 1;
      }
      answer := Ok(AnswerFor(existing, ttl, limit, blockDuration));
    }

    method Prune(configuredMinutes: int, now: int) returns (deleted: nat)
      requires Valid()
      modifies this
      ensures Valid()
      ensures hits == PrunedHits(old(hits), now - RetentionMs(configuredMinutes))
      ensures var minutes := if configuredMinutes > 0 then configuredMinutes else 5;
              forall h :: h in old(hits) ==>
                (h in hits <==> now - old(hits)[h].hitAt <= minutes * 60000) && (h in hits ==> hits[h] == old(hits)[h])
      ensures deleted + |hits| == |old(hits)|
    {
      var minutes := if configuredMinutes > 0 then configuredMinutes else 5;
      var kept := PrunedHits(hits, now - minutes * 60 * 1000);
      SubmapSize(kept, hits);
      deleted := |hits| - |kept|;
      hits := kept;
    }

    method DeleteForTenant(tenantId: Bytes) returns (deleted: nat)
      requires Valid()
      modifies this
      ensures Valid()
      ensures hits == WithoutTracker(old(hits), tenantId)
      ensures forall h :: h in old(hits) ==>
                (h in hits <==> old(hits)[h].bucket.tracker != tenantId) && (h in hits ==> hits[h] == old(hits)[h])
      ensures deleted + |hits| == |old(hits)|
    {
      var kept := WithoutTracker(hits, tenantId);
      SubmapSize(kept, hits);
      deleted := |hits| - |kept|;
      hits := kept;
    }
  }

  lemma {:induction false} SubmapSize<K, V>(a: map<K, V>, b: map<K, V>)
    requires a.Keys <= b.Keys
    ensures |a| <= |b|
  {
    SubsetSize(a.Keys, b.Keys);
    assert |a| == |a.Keys| && |b| == |b.Keys|;
  }

  /** A pruning and a reset leave the store as `Prune` and `DeleteForTenant` do. */
  lemma {:induction false} DeletingSteps(retention: nat, s: State, tracker: Bytes)
    ensures var pruned, reset := Step(retention, s, Prune).hits, Step(retention, s, Reset(tracker)).hits;
            && pruned.Keys <= s.hits.Keys && reset.Keys <= s.hits.Keys
            && forall h :: h in s.hits ==>
                 && (h in pruned <==> s.now - s.hits[h].hitAt <= retention)
                 && (h in reset <==> s.hits[h].bucket.tracker != tracker)
                 && (h in pruned ==> pruned[h] == s.hits[h]) && (h in reset ==> reset[h] == s.hits[h])
  {}

  /** A request handled without interruption leaves the store as one `Increment` does. */
  lemma {:induction false} UninterruptedRequest(
      retention: nat, s: State, rid: RequestId, bucket: Bucket, ttl: nat, limit: nat)
    requires rid !in s.reqs
    ensures var existing := |Since(s.hits, bucket, s.now - ttl)|;
            var t := Step(retention, Step(retention, Step(retention, s, Begin(rid, bucket, ttl, limit)),
                                          Count(rid)), Finish(rid));
            && t.hits == (if Recorded(existing, limit) then s.hits[rid := Hit(bucket, s.now)] else s.hits)
            && t.reqs[rid].phase == Answered(existing, s.steps + 1, s.now)
            && (Admitted(t.reqs[rid]) <==> !AnswerFor(existing, ttl, limit, 0).isBlocked)
  {
    var r := Request(bucket, ttl, limit, s.now - ttl, Begun);
    var one := Step(retention, s, Begin(rid, bucket, ttl, limit));
    var two := Step(retention, one, Count(rid));
    assert one.reqs[rid] == r && one.hits == s.hits;
    assert two.reqs[rid].phase.Counted? && two.hits == s.hits;
  }
}
