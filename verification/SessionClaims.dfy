/** Concurrent enforcement of the session cap. The claiming statement reads its candidates
    newest first and locks them one at a time, passing over rows another transaction has locked
    or has deleted meanwhile; it keeps the first `keep` rows it locked and deletes the others
    when it commits. */
module SessionClaims {
  import opened Options
  import opened Cardinality
  import opened OidcStore

  type Pid = nat

  /** `candidates` are the sessions the scan found when it started, `kept` those of its locked
      rows that it left in place when it committed. */
  datatype Enforcer =
    | Scanning(keep: nat, todo: seq<Id>, taken: seq<Id>, candidates: set<Id>)
    | Finished(keep: nat, candidates: set<Id>, kept: seq<Id>)

  /** `deleted` lists the sessions claimed so far, in commit order. */
  datatype State = State(
    rows: Table, locks: map<Id, Pid>, enforcers: map<Pid, Enforcer>, deleted: seq<Id>)

  datatype Event =
    | Login(id: Id, expiresAt: Option<Time>, now: Time)
    | Start(pid: Pid, limit: nat, newSession: Option<Id>, now: Time, order: seq<Id>)
    | Scan(pid: Pid)
    | Commit(pid: Pid)
    | Abort(pid: Pid)

  function Elements(ids: seq<Id>): set<Id> { set i | i in ids }

  ghost predicate NoDuplicates(ids: seq<Id>) { forall i, j :: 0 <= i < j < |ids| ==> ids[i] != ids[j] }

  /** The result of `ORDER BY created_at DESC, oidc_id DESC` over `ids`. */
  predicate NewestFirst(rows: Table, ids: set<Id>, order: seq<Id>) {
    && Stored(rows, ids) && Elements(order) == ids
    && forall i, j :: 0 <= i < j < |order| ==> order[i] in ids && order[j] in ids && Newer(rows, order[i], order[j])
  }

  function SessionIds(rows: Table, account: Id): set<Id> {
    set k | k in rows && k.model == Session && rows[k].account == Some(account) :: k.id
  }

  function Released(locks: map<Id, Pid>, pid: Pid): map<Id, Pid> {
    map i | i in locks && locks[i] != pid :: locks[i]
  }

  /** What an enforcer that has scanned to the end deletes. */
  function Doomed(e: Enforcer): seq<Id>
    requires e.Scanning?
  {
    if |e.taken| <= e.keep then [] else e.taken[e.keep..]
  }

  function Kept(e: Enforcer): seq<Id>
    requires e.Scanning?
  {
    if |e.taken| <= e.keep then e.taken else e.taken[..e.keep]
  }

  function Done(e: Enforcer, kept: seq<Id>): Enforcer { Finished(e.keep, e.candidates, kept) }

  function Step(account: Id, s: State, e: Event): State {
    match e
    case Login(id, expiresAt, now) =>
      if Key(Session, id) in s.rows || id in s.deleted then s
      else s.(rows := s.rows[Key(Session, id) := Row(Some(account), None, expiresAt, now, None)])
    case Start(pid, limit, newSession, now, order) =>
      var candidates := Candidates(s.rows, account, newSession, now);
      if pid in s.enforcers || !NewestFirst(s.rows, candidates, order) then s
      else s.(enforcers := s.enforcers[pid := Scanning(Keep(limit, newSession), order, [], candidates)])
    case Scan(pid) =>
      if pid !in s.enforcers || !s.enforcers[pid].Scanning? || s.enforcers[pid].todo == [] then s
      else
        var en := s.enforcers[pid];
        var id := en.todo[0];
        if id in s.locks || Key(Session, id) !in s.rows
        then s.(enforcers := s.enforcers[pid := en.(todo := en.todo[1..])])
        else s.(enforcers := s.enforcers[pid := en.(todo := en.todo[1..], taken := en.taken + [id])],
                locks := s.locks[id := pid])
    case Commit(pid) =>
      if pid !in s.enforcers || !s.enforcers[pid].Scanning? || s.enforcers[pid].todo != [] then s
      else
        var en := s.enforcers[pid];
        State(WithoutSessions(s.rows, Elements(Doomed(en))), Released(s.locks, pid),
              s.enforcers[pid := Done(en, Kept(en))], s.deleted + Doomed(en))
    case Abort(pid) =>
      if pid !in s.enforcers || !s.enforcers[pid].Scanning? then s
      else s.(locks := Released(s.locks, pid), enforcers := s.enforcers[pid := Done(s.enforcers[pid], [])])
  }

  function Run(account: Id, es: seq<Event>): State {
    if es == [] then State(map[], map[], map[], []) else Step(account, Run(account, es[..|es| - 1]), es[|es| - 1])
  }

  // ----- what every run keeps -----------------------------------------------------------

  /** An enforcer holds locks on exactly the stored rows it has taken, in newest-first order. */
  ghost predicate Holds(s: State, account: Id, pid: Pid, e: Enforcer) {
    e.Scanning? ==>
      && NoDuplicates(e.taken)
      && (forall i :: i in e.taken ==>
            && i in s.locks && s.locks[i] == pid
            && Key(Session, i) in s.rows && s.rows[Key(Session, i)].account == Some(account))
      && (forall i :: i in e.todo ==> i !in e.taken && (Key(Session, i) in s.rows || i in s.deleted))
      && NoDuplicates(e.todo)
      && StillSorted(s.rows, e.taken + e.todo)
  }

  /** Those of the rows that are still stored stand newest first. */
  ghost predicate StillSorted(rows: Table, ids: seq<Id>) {
    forall i, j :: 0 <= i < j < |ids| && Key(Session, ids[i]) in rows && Key(Session, ids[j]) in rows ==>
      Newer(rows, ids[i], ids[j])
  }

  /** Each lock belongs to an enforcer that took the row and has not finished. */
  ghost predicate LocksHeld(s: State) {
    forall i :: i in s.locks ==>
      && s.locks[i] in s.enforcers && s.enforcers[s.locks[i]].Scanning?
      && i in s.enforcers[s.locks[i]].taken
  }

  ghost predicate Inv(s: State, account: Id) {
    && (forall p :: p in s.enforcers ==> Holds(s, account, p, s.enforcers[p]))
    && LocksHeld(s)
    && (forall k :: k in s.rows ==> k.model == Session && s.rows[k].account == Some(account))
    && NoDuplicates(s.deleted)
    && (forall i :: i in s.deleted ==> Key(Session, i) !in s.rows)
  }

  lemma {:induction false} InvStep(account: Id, s: State, e: Event)
    requires Inv(s, account)
    ensures Inv(Step(account, s, e), account)
  {
    match e
    case Login(id, expiresAt, now) => InvLogin(account, s, e);
    case Start(pid, limit, newSession, now, order) => InvStart(account, s, e);
    case Scan(pid) => InvScan(account, s, pid);
    case Commit(pid) => InvCommit(account, s, pid);
    case Abort(pid) => InvAbort(account, s, pid);
  }

  lemma {:induction false} InvLogin(account: Id, s: State, e: Event)
    requires Inv(s, account) && e.Login?
    ensures Inv(Step(account, s, e), account)
  {
    var t := Step(account, s, e);
    forall p | p in t.enforcers ensures Holds(t, account, p, t.enforcers[p]) {
      assert Holds(s, account, p, s.enforcers[p]);
    }
  }

  lemma {:induction false} InvStart(account: Id, s: State, e: Event)
    requires Inv(s, account) && e.Start?
    ensures Inv(Step(account, s, e), account)
  {
    var t := Step(account, s, e);
    forall p | p in t.enforcers ensures Holds(t, account, p, t.enforcers[p]) {
      if p in s.enforcers { assert Holds(s, account, p, s.enforcers[p]); }
    }
  }

  lemma {:induction false} InvScan(account: Id, s: State, pid: Pid)
    requires Inv(s, account)
    ensures Inv(Step(account, s, Scan(pid)), account)
  {
    var t := Step(account, s, Scan(pid));
    forall p | p in t.enforcers ensures Holds(t, account, p, t.enforcers[p]) {
      assert Holds(s, account, p, s.enforcers[p]);
      ScanHolds(account, s, pid, p);
    }
    ScanLocks(account, s, pid);
  }

  lemma {:induction false} ScanLocks(account: Id, s: State, pid: Pid)
    requires LocksHeld(s)
    ensures LocksHeld(Step(account, s, Scan(pid)))
  {}

  lemma {:induction false} ScanHolds(account: Id, s: State, pid: Pid, p: Pid)
    requires p in s.enforcers && Holds(s, account, p, s.enforcers[p])
    requires forall k :: k in s.rows ==> s.rows[k].account == Some(account)
    ensures var t := Step(account, s, Scan(pid)); Holds(t, account, p, t.enforcers[p])
  {
    if p == pid && s.enforcers[p].Scanning? && s.enforcers[p].todo != [] {
      SortedAfterScan(s.rows, s.enforcers[p].taken, s.enforcers[p].todo);
    }
  }

  lemma {:induction false} SortedAfterScan(rows: Table, taken: seq<Id>, todo: seq<Id>)
    requires todo != [] && StillSorted(rows, taken + todo)
    ensures StillSorted(rows, (taken + [todo[0]]) + todo[1..]) && StillSorted(rows, taken + todo[1..])
  {
    var all, rest := taken + todo, taken + todo[1..];
    assert (taken + [todo[0]]) + todo[1..] == all;
    forall i, j | 0 <= i < j < |rest| && Key(Session, rest[i]) in rows && Key(Session, rest[j]) in rows
      ensures Newer(rows, rest[i], rest[j])
    {
      var i', j' := if i < |taken| then i else i + 1, if j < |taken| then j else j + 1;
      assert rest[i] == all[i'] && rest[j] == all[j'];
    }
  }

  lemma {:induction false} InvAbort(account: Id, s: State, pid: Pid)
    requires Inv(s, account)
    ensures Inv(Step(account, s, Abort(pid)), account)
  {
    var t := Step(account, s, Abort(pid));
    forall p | p in t.enforcers ensures Holds(t, account, p, t.enforcers[p]) {
      assert Holds(s, account, p, s.enforcers[p]);
    }
  }

  lemma {:induction false} InvCommit(account: Id, s: State, pid: Pid)
    requires Inv(s, account)
    ensures Inv(Step(account, s, Commit(pid)), account)
  {
    var t := Step(account, s, Commit(pid));
    if Commits(s, pid) {
      assert Holds(s, account, pid, s.enforcers[pid]);
      var doomed := Doomed(s.enforcers[pid]);
      assert forall i :: i in doomed ==> i in s.enforcers[pid].taken;
      forall p | p in t.enforcers ensures Holds(t, account, p, t.enforcers[p]) {
        assert Holds(s, account, p, s.enforcers[p]);
        CommitHolds(account, s, pid, p);
      }
      assert LocksHeld(t);
      NoDuplicatesTogether(s.deleted, doomed);
    }
  }

  lemma {:induction false} CommitHolds(account: Id, s: State, pid: Pid, p: Pid)
    requires Commits(s, pid) && Holds(s, account, pid, s.enforcers[pid])
    requires p in s.enforcers && Holds(s, account, p, s.enforcers[p])
    ensures var t := Step(account, s, Commit(pid)); Holds(t, account, p, t.enforcers[p])
  {
    assert forall i :: i in Doomed(s.enforcers[pid]) ==> i in s.enforcers[pid].taken;
  }

  lemma {:induction false} NoDuplicatesTogether(a: seq<Id>, b: seq<Id>)
    requires NoDuplicates(a) && NoDuplicates(b) && forall i :: i in a ==> i !in b
    ensures NoDuplicates(a + b)
  {
    forall i, j | 0 <= i < j < |a + b| ensures (a + b)[i] != (a + b)[j] {
      if i < |a| <= j { assert a[i] in a && b[j - |a|] in b; }
    }
  }

  lemma {:induction false} RunKeeps(account: Id, es: seq<Event>)
    ensures Inv(Run(account, es), account)
  {
    if es != [] {
      RunKeeps(account, es[..|es| - 1]);
      InvStep(account, Run(account, es[..|es| - 1]), es[|es| - 1]);
    }
  }

  /** No session is claimed twice. */
  lemma {:induction false} NeverClaimedTwice(account: Id, es: seq<Event>)
    ensures NoDuplicates(Run(account, es).deleted)
    ensures forall i :: i in Run(account, es).deleted ==> i !in SessionIds(Run(account, es).rows, account)
  {
    RunKeeps(account, es);
  }

  ghost predicate Commits(s: State, pid: Pid) {
    pid in s.enforcers && s.enforcers[pid].Scanning? && s.enforcers[pid].todo == []
  }

  /** After a commit that deletes anything, at least `keep` of the account's sessions are still
      stored, each newer than every one deleted, however many other enforcers run beside it. */
  lemma {:induction false} DeletingCommitKeeps(account: Id, es: seq<Event>, pid: Pid)
    requires Commits(Run(account, es), pid) && Doomed(Run(account, es).enforcers[pid]) != []
    ensures var en := Run(account, es).enforcers[pid];
            var t := Run(account, es + [Commit(pid)]);
            && |SessionIds(t.rows, account)| >= en.keep
            && (forall i :: i in en.taken[..en.keep] ==> i in SessionIds(t.rows, account))
            && (forall i :: i in Doomed(en) ==> i !in SessionIds(t.rows, account))
            && (forall k, v :: 0 <= k < en.keep <= v < |en.taken| ==>
                  NewerStored(Run(account, es).rows, en.taken[k], en.taken[v]))
  {
    RunKeeps(account, es);
    var s := Run(account, es);
    assert (es + [Commit(pid)])[..|es|] == es;
    var en := s.enforcers[pid];
    assert Holds(s, account, pid, en);
    TakenNewestFirst(s, account, pid, en);
    CommitLeaves(s, account, pid, en);
  }

  predicate NewerStored(rows: Table, a: Id, b: Id) { Stored(rows, {a, b}) && Newer(rows, a, b) }

  lemma {:induction false} TakenNewestFirst(s: State, account: Id, pid: Pid, en: Enforcer)
    requires en.Scanning? && Holds(s, account, pid, en)
    ensures forall k, v :: 0 <= k < v < |en.taken| ==> NewerStored(s.rows, en.taken[k], en.taken[v])
  {
    var ids := en.taken + en.todo;
    forall k, v | 0 <= k < v < |en.taken| ensures NewerStored(s.rows, en.taken[k], en.taken[v]) {
      assert ids[k] == en.taken[k] && ids[v] == en.taken[v];
      assert en.taken[k] in en.taken && en.taken[v] in en.taken;
    }
  }

  lemma {:induction false} CommitLeaves(s: State, account: Id, pid: Pid, en: Enforcer)
    requires en.Scanning? && Holds(s, account, pid, en) && Doomed(en) != []
    ensures var left := SessionIds(WithoutSessions(s.rows, Elements(Doomed(en))), account);
            && |left| >= en.keep
            && (forall i :: i in en.taken[..en.keep] ==> i in left)
            && (forall i :: i in Doomed(en) ==> i !in left)
  {
    var rows := WithoutSessions(s.rows, Elements(Doomed(en)));
    var kept := en.taken[..en.keep];
    forall i | i in kept ensures i in SessionIds(rows, account) {
      assert i in en.taken && i !in Doomed(en);
      assert Key(Session, i) in rows;
    }
    ElementsSize(kept);
    SubsetSize(Elements(kept), SessionIds(rows, account));
  }

  // ----- how many candidates are left ---------------------------------------------------

  /** Whatever an enforcer has taken or has still to scan was a candidate when it started. */
  ghost predicate TakesCandidates(s: State) {
    forall p :: p in s.enforcers && s.enforcers[p].Scanning? ==>
      Elements(s.enforcers[p].taken) + Elements(s.enforcers[p].todo) <= s.enforcers[p].candidates
  }

  lemma {:induction false} TakesCandidatesStep(account: Id, s: State, e: Event)
    requires TakesCandidates(s)
    ensures TakesCandidates(Step(account, s, e))
  {
    var t := Step(account, s, e);
    forall p | p in t.enforcers && t.enforcers[p].Scanning?
      ensures Elements(t.enforcers[p].taken) + Elements(t.enforcers[p].todo) <= t.enforcers[p].candidates
    {
      if p in s.enforcers && s.enforcers[p].Scanning? {
        var old', new' := s.enforcers[p], t.enforcers[p];
        assert Elements(old'.taken) + Elements(old'.todo) <= old'.candidates == new'.candidates;
        assert forall i :: i in new'.taken || i in new'.todo ==> i in Elements(old'.taken) + Elements(old'.todo);
      }
    }
  }

  lemma {:induction false} RunTakesCandidates(account: Id, es: seq<Event>)
    ensures TakesCandidates(Run(account, es))
  {
    if es != [] {
      RunTakesCandidates(account, es[..|es| - 1]);
      TakesCandidatesStep(account, Run(account, es[..|es| - 1]), es[|es| - 1]);
    }
  }

  function Least(a: nat, b: nat): nat { if a <= b then a else b }

  /** The candidates an enforcer has passed over that are still stored: those another enforcer
      had locked when it came to them, and has not deleted since. */
  function PassedOver(s: State, account: Id, e: Enforcer): set<Id>
    requires e.Scanning?
  {
    (e.candidates - Elements(e.taken)) * SessionIds(s.rows, account)
  }

  /** A commit leaves stored, of the candidates it started with, as many as it keeps of those it
      took and every one it passed over. So it leaves at most `keep` of them if and only if those
      passed over and still stored fit into what it has left to keep. */
  lemma {:induction false} CommitLeavesExactly(account: Id, es: seq<Event>, pid: Pid)
    requires Commits(Run(account, es), pid)
    ensures var s, t := Run(account, es), Run(account, es + [Commit(pid)]);
            var en := s.enforcers[pid];
            var left, passed := en.candidates * SessionIds(t.rows, account), PassedOver(s, account, en);
            && |left| == Least(en.keep, |en.taken|) + |passed|
            && (|left| <= en.keep <==> |passed| <= en.keep - Least(en.keep, |en.taken|))
  {
    RunMore(account, es, Commit(pid));
    LeftInRun(account, es, pid);
  }

  lemma {:induction false} LeftInRun(account: Id, es: seq<Event>, pid: Pid)
    requires Commits(Run(account, es), pid)
    ensures var s := Run(account, es);
            var en := s.enforcers[pid];
            |en.candidates * SessionIds(WithoutSessions(s.rows, Elements(Doomed(en))), account)|
            == Least(en.keep, |en.taken|) + |PassedOver(s, account, en)|
  {
    RunKeeps(account, es);
    RunTakesCandidates(account, es);
    var s := Run(account, es);
    assert Holds(s, account, pid, s.enforcers[pid]);
    LeftAfterCommit(s, account, pid, s.enforcers[pid]);
  }

  lemma {:induction false} LeftAfterCommit(s: State, account: Id, pid: Pid, en: Enforcer)
    requires en.Scanning? && Holds(s, account, pid, en) && Elements(en.taken) <= en.candidates
    ensures var left := en.candidates * SessionIds(WithoutSessions(s.rows, Elements(Doomed(en))), account);
            |left| == Least(en.keep, |en.taken|) + |PassedOver(s, account, en)|
  {
    var n := Least(en.keep, |en.taken|);
    var kept, stored := en.taken[..n], SessionIds(s.rows, account);
    SessionsWithout(s.rows, account, Elements(Doomed(en)));
    KeptOrDoomed(en.taken, n);
    assert Elements(Doomed(en)) == Elements(en.taken[n..]);
    forall i | i in en.taken ensures i in stored { assert Key(Session, i) in s.rows; }
    CandidatesLeft(en.candidates, stored, Elements(en.taken), Elements(kept), Elements(en.taken[n..]));
    ElementsSize(kept);
  }

  lemma {:induction false} CandidatesLeft(
      candidates: set<Id>, stored: set<Id>, taken: set<Id>, kept: set<Id>, doomed: set<Id>)
    requires taken <= candidates && taken <= stored && kept !! doomed && kept + doomed == taken
    ensures |candidates * (stored - doomed)| == |kept| + |(candidates - taken) * stored|
  {
    assert candidates * (stored - doomed) == kept + (candidates - taken) * stored;
  }

  lemma {:induction false} SessionsWithout(rows: Table, account: Id, ids: set<Id>)
    ensures SessionIds(WithoutSessions(rows, ids), account) == SessionIds(rows, account) - ids
  {
    forall i | i in SessionIds(rows, account) - ids ensures i in SessionIds(WithoutSessions(rows, ids), account) {
      assert Key(Session, i) in rows && Key(Session, i) in WithoutSessions(rows, ids);
    }
    forall i | i in SessionIds(WithoutSessions(rows, ids), account) ensures i in SessionIds(rows, account) - ids {
      assert Key(Session, i) in WithoutSessions(rows, ids) && Key(Session, i) in rows;
    }
  }

  lemma {:induction false} KeptOrDoomed(taken: seq<Id>, n: nat)
    requires n <= |taken| && NoDuplicates(taken)
    ensures Elements(taken[..n]) !! Elements(taken[n..])
    ensures Elements(taken[..n]) + Elements(taken[n..]) == Elements(taken)
  {
    assert taken == taken[..n] + taken[n..];
  }

  lemma {:induction false} ElementsSize(ids: seq<Id>)
    requires NoDuplicates(ids)
    ensures |Elements(ids)| == |ids|
  {
    if ids != [] {
      var n := |ids| - 1;
      ElementsSize(ids[..n]);
      assert Elements(ids) == Elements(ids[..n]) + {ids[n]};
    }
  }

  // ----- what all enforcers together leave ----------------------------------------------

  /** The row is locked, or an enforcer that has committed kept it. */
  ghost predicate KeptOrLocked(s: State, i: Id) {
    i in s.locks || exists q :: q in s.enforcers && s.enforcers[q].Finished? && i in s.enforcers[q].kept
  }

  /** A candidate that its enforcer has come to and that is still stored is locked, or was kept. */
  ghost predicate Accounted(s: State, p: Pid)
    requires p in s.enforcers
  {
    var en := s.enforcers[p];
    && (en.Finished? ==> |en.kept| <= en.keep)
    && (forall i :: i in en.candidates ==> Key(Session, i) in s.rows || i in s.deleted)
    && (forall i :: i in en.candidates && Key(Session, i) in s.rows && !(en.Scanning? && i in en.todo) ==>
          KeptOrLocked(s, i))
  }

  ghost predicate AllAccounted(s: State) { forall p :: p in s.enforcers ==> Accounted(s, p) }

  /** A row once locked or kept stays so while it is stored, unless an enforcer gives up. */
  lemma {:induction false} StaysKeptOrLocked(account: Id, s: State, e: Event, i: Id)
    requires Inv(s, account) && !e.Abort? && KeptOrLocked(s, i)
    ensures var t := Step(account, s, e); Key(Session, i) in t.rows ==> KeptOrLocked(t, i)
  {
    var t := Step(account, s, e);
    if i in s.locks {
      if e.Commit? && Commits(s, e.pid) && s.locks[i] == e.pid { KeptOrGone(account, s, e.pid, i); }
    } else {
      var q :| q in s.enforcers && s.enforcers[q].Finished? && i in s.enforcers[q].kept;
      assert q in t.enforcers && t.enforcers[q] == s.enforcers[q];
    }
  }

  lemma {:induction false} KeptOrGone(account: Id, s: State, pid: Pid, i: Id)
    requires Commits(s, pid) && i in s.enforcers[pid].taken
    ensures var t := Step(account, s, Commit(pid));
            Key(Session, i) in t.rows ==> t.enforcers[pid].Finished? && i in t.enforcers[pid].kept
  {
    var en := s.enforcers[pid];
    assert en.taken == Kept(en) + Doomed(en);
    assert i in Doomed(en) ==> i in Elements(Doomed(en));
  }

  lemma {:induction false} AccountedStep(account: Id, s: State, e: Event)
    requires Inv(s, account) && !e.Abort? && AllAccounted(s)
    ensures AllAccounted(Step(account, s, e))
  {
    var t := Step(account, s, e);
    forall p | p in t.enforcers ensures Accounted(t, p) {
      if p in s.enforcers {
        assert Accounted(s, p);
        StoredOrDeleted(account, s, e, p);
        forall i | i in t.enforcers[p].candidates && Key(Session, i) in t.rows
                   && !(t.enforcers[p].Scanning? && i in t.enforcers[p].todo)
          ensures KeptOrLocked(t, i)
        {
          ComesToBeKept(account, s, e, p, i);
        }
      }
    }
  }

  lemma {:induction false} StoredOrDeleted(account: Id, s: State, e: Event, p: Pid)
    requires p in s.enforcers && !e.Abort? && Accounted(s, p)
    ensures var t := Step(account, s, e);
            && p in t.enforcers && t.enforcers[p].candidates == s.enforcers[p].candidates
            && (t.enforcers[p].Finished? ==> |t.enforcers[p].kept| <= t.enforcers[p].keep)
            && (forall i :: i in t.enforcers[p].candidates ==> Key(Session, i) in t.rows || i in t.deleted)
  {}

  lemma {:induction false} ComesToBeKept(account: Id, s: State, e: Event, p: Pid, i: Id)
    requires Inv(s, account) && !e.Abort? && p in s.enforcers && Accounted(s, p) && i in s.enforcers[p].candidates
    requires var t := Step(account, s, e);
             && p in t.enforcers && Key(Session, i) in t.rows
             && !(t.enforcers[p].Scanning? && i in t.enforcers[p].todo)
    ensures KeptOrLocked(Step(account, s, e), i)
  {
    var t, en := Step(account, s, e), s.enforcers[p];
    assert Key(Session, i) in s.rows;
    if en.Scanning? && i in en.todo {
      assert e == Scan(p) && i == en.todo[0];
    } else {
      StaysKeptOrLocked(account, s, e, i);
    }
  }

  ghost predicate NoAborts(es: seq<Event>) { forall j :: 0 <= j < |es| ==> !es[j].Abort? }

  lemma {:induction false} RunAccounted(account: Id, es: seq<Event>)
    requires NoAborts(es)
    ensures AllAccounted(Run(account, es))
  {
    if es != [] {
      var before := es[..|es| - 1];
      RunAccounted(account, before);
      RunKeeps(account, before);
      AccountedStep(account, Run(account, before), es[|es| - 1]);
    }
  }

  function AllCandidates(s: State): set<Id> { set p, i | p in s.enforcers && i in s.enforcers[p].candidates :: i }

  function AllKept(s: State, pids: seq<Pid>): set<Id> {
    if pids == [] then {}
    else
      var p := pids[|pids| - 1];
      AllKept(s, pids[..|pids| - 1])
      + (if p in s.enforcers && s.enforcers[p].Finished? then Elements(s.enforcers[p].kept) else {})
  }

  function TotalKeep(s: State, pids: seq<Pid>): nat {
    if pids == [] then 0
    else
      var p := pids[|pids| - 1];
      TotalKeep(s, pids[..|pids| - 1]) + (if p in s.enforcers then s.enforcers[p].keep else 0)
  }

  lemma {:induction false} ElementsAtMost(ids: seq<Id>)
    ensures |Elements(ids)| <= |ids|
  {
    if ids != [] {
      var n := |ids| - 1;
      ElementsAtMost(ids[..n]);
      assert Elements(ids) == Elements(ids[..n]) + {ids[n]};
    }
  }

  lemma {:induction false} KeptAtMost(s: State, pids: seq<Pid>)
    requires AllAccounted(s)
    ensures |AllKept(s, pids)| <= TotalKeep(s, pids)
  {
    if pids != [] {
      var n := |pids| - 1;
      var p := pids[n];
      KeptAtMost(s, pids[..n]);
      if p in s.enforcers && s.enforcers[p].Finished? {
        assert |s.enforcers[p].kept| <= s.enforcers[p].keep by { assert Accounted(s, p); }
        ElementsAtMost(s.enforcers[p].kept);
        UnionSize(AllKept(s, pids[..n]), Elements(s.enforcers[p].kept));
      }
    }
  }

  lemma {:induction false} KeptIsListed(s: State, pids: seq<Pid>, p: Pid, i: Id)
    requires p in pids && p in s.enforcers && s.enforcers[p].Finished? && i in s.enforcers[p].kept
    ensures i in AllKept(s, pids)
  {
    var n := |pids| - 1;
    if p != pids[n] {
      assert p in pids[..n];
      KeptIsListed(s, pids[..n], p, i);
    }
  }

  /** Once every enforcer has committed and none has given up, each session that any of them found
      and that is still stored was kept by one of them, so these number at most what they keep
      between them. `CapMayBeMissed` reaches the bound. */
  lemma {:induction false} LeftWithinKeeps(account: Id, es: seq<Event>, pids: seq<Pid>)
    requires NoAborts(es)
    requires forall p :: p in Run(account, es).enforcers ==> Run(account, es).enforcers[p].Finished? && p in pids
    ensures var s := Run(account, es);
            var left := AllCandidates(s) * SessionIds(s.rows, account);
            left <= AllKept(s, pids) && |left| <= TotalKeep(s, pids)
  {
    var s := Run(account, es);
    RunKeeps(account, es);
    RunAccounted(account, es);
    KeptAtMost(s, pids);
    var left := AllCandidates(s) * SessionIds(s.rows, account);
    forall i | i in left ensures i in AllKept(s, pids) {
      var p :| p in s.enforcers && i in s.enforcers[p].candidates;
      assert Accounted(s, p) && Key(Session, i) in s.rows && KeptOrLocked(s, i);
      assert i !in s.locks;
      var q :| q in s.enforcers && s.enforcers[q].Finished? && i in s.enforcers[q].kept;
      KeptIsListed(s, pids, q, i);
    }
    SubsetSize(left, AllKept(s, pids));
  }

  // ----- alone, and not alone -----------------------------------------------------------

  /** Dropping the first `keep` of the newest-first order is evicting the surplus. */
  lemma {:induction false} OffsetIsSurplus(rows: Table, ids: set<Id>, order: seq<Id>, keep: nat)
    requires NewestFirst(rows, ids, order)
    ensures Elements(if |order| <= keep then [] else order[keep..]) == Surplus(rows, ids, keep)
  {
    forall j | 0 <= j < |order| ensures order[j] in ids && |NewerThan(rows, ids, order[j])| == j {
      assert order[j] in Elements(order);
      forall u ensures u in NewerThan(rows, ids, order[j]) <==> u in Elements(order[..j]) {
        if u in ids {
          var i :| 0 <= i < |order| && order[i] == u;
          assert i < j ==> Newer(rows, order[i], order[j]);
          assert j < i ==> Newer(rows, order[j], order[i]);
          assert i < j ==> order[..j][i] == u;
        }
        if u in Elements(order[..j]) {
          var i :| 0 <= i < j && order[..j][i] == u;
          assert order[i] == u && u in Elements(order) && Newer(rows, order[i], order[j]);
        }
      }
      assert NewerThan(rows, ids, order[j]) == Elements(order[..j]);
      ElementsSize(order[..j]);
    }
    var dropped := if |order| <= keep then [] else order[keep..];
    forall v ensures v in Elements(dropped) <==> v in Surplus(rows, ids, keep) {
      if v in dropped {
        var i :| 0 <= i < |dropped| && dropped[i] == v;
        assert v == order[keep + i];
      }
      if v in ids {
        var i :| 0 <= i < |order| && order[i] == v;
        if i >= keep { assert v == dropped[i - keep]; }
      }
    }
  }

  /** Since `base` no other enforcer has locked a row: `pid` has taken every row it has come to,
      and all of `base` is still stored. */
  ghost predicate Undisturbed(s: State, base: Table, pid: Pid, keep: nat, order: seq<Id>) {
    && pid in s.enforcers
    && (s.enforcers[pid].Scanning? ==>
          && s.enforcers[pid].keep == keep && s.enforcers[pid].candidates == Elements(order)
          && s.enforcers[pid].taken + s.enforcers[pid].todo == order
          && (forall i :: i in s.locks ==> s.locks[i] == pid)
          && (forall k :: k in base ==> k in s.rows && s.rows[k] == base[k]))
  }

  predicate OtherScan(e: Event, pid: Pid) { e.Scan? && e.pid != pid }

  lemma {:induction false} UndisturbedScan(account: Id, s: State, base: Table, pid: Pid, keep: nat, order: seq<Id>)
    requires Inv(s, account) && Undisturbed(s, base, pid, keep, order)
    requires forall i :: i in order ==> Key(Session, i) in base
    ensures Undisturbed(Step(account, s, Scan(pid)), base, pid, keep, order)
  {
    var en := s.enforcers[pid];
    if en.Scanning? && en.todo != [] {
      var id := en.todo[0];
      assert Holds(s, account, pid, en);
      assert id in en.todo && id in order;
      assert id !in s.locks;
      assert en.taken + [id] + en.todo[1..] == en.taken + en.todo;
    }
  }

  lemma {:induction false} UndisturbedCommit(
      account: Id, s: State, base: Table, pid: Pid, keep: nat, order: seq<Id>, other: Pid)
    requires Inv(s, account) && Undisturbed(s, base, pid, keep, order)
    ensures Undisturbed(Step(account, s, Commit(other)), base, pid, keep, order)
  {
    if other != pid && other in s.enforcers && s.enforcers[other].Scanning? && s.enforcers[pid].Scanning? {
      var en := s.enforcers[other];
      assert Holds(s, account, other, en);
      assert forall i :: i !in en.taken;
      assert forall i :: i in Doomed(en) ==> i in en.taken;
      assert Elements(Doomed(en)) == {};
      assert WithoutSessions(s.rows, {}) == s.rows;
    }
  }

  lemma {:induction false} UndisturbedStep(
      account: Id, s: State, base: Table, pid: Pid, keep: nat, order: seq<Id>, e: Event)
    requires Inv(s, account) && Undisturbed(s, base, pid, keep, order) && !OtherScan(e, pid)
    requires forall i :: i in order ==> Key(Session, i) in base
    ensures Undisturbed(Step(account, s, e), base, pid, keep, order)
  {
    match e
    case Scan(_) => UndisturbedScan(account, s, base, pid, keep, order);
    case Commit(other) => UndisturbedCommit(account, s, base, pid, keep, order, other);
    case Login(_, _, _) =>
    case Start(_, _, _, _, _) =>
    case Abort(_) =>
  }

  lemma {:induction false} UndisturbedRun(
      account: Id, before: seq<Event>, mid: seq<Event>, base: Table, pid: Pid, keep: nat, order: seq<Id>)
    requires Undisturbed(Run(account, before), base, pid, keep, order)
    requires forall i :: i in order ==> Key(Session, i) in base
    requires forall i :: 0 <= i < |mid| ==> !OtherScan(mid[i], pid)
    ensures Undisturbed(Run(account, before + mid), base, pid, keep, order)
    decreases |mid|
  {
    if mid == [] {
      assert before + mid == before;
    } else {
      var n := |mid| - 1;
      UndisturbedRun(account, before, mid[..n], base, pid, keep, order);
      UndisturbedMore(account, before + mid[..n], base, pid, keep, order, mid[n]);
      assert before + mid[..n] + [mid[n]] == before + mid;
    }
  }

  lemma {:induction false} UndisturbedMore(
      account: Id, es: seq<Event>, base: Table, pid: Pid, keep: nat, order: seq<Id>, e: Event)
    requires Undisturbed(Run(account, es), base, pid, keep, order) && !OtherScan(e, pid)
    requires forall i :: i in order ==> Key(Session, i) in base
    ensures Undisturbed(Run(account, es + [e]), base, pid, keep, order)
  {
    RunKeeps(account, es);
    RunMore(account, es, e);
    UndisturbedStep(account, Run(account, es), base, pid, keep, order, e);
  }

  /** An enforcer that starts while no row is locked, and beside which no other enforcer comes to
      scan a row before it commits, deletes exactly the surplus it found and so meets the cap:
      of the sessions live when it started, min(prior, limit) are left, the new one among them.
      Logins, and other enforcers starting, committing or giving up, may come in between. */
  lemma {:induction false} AloneMeetsCap(
      account: Id, before: seq<Event>, pid: Pid, limit: nat, newSession: Option<Id>, now: Time, order: seq<Id>,
      mid: seq<Event>)
    requires var s := Run(account, before);
             && pid !in s.enforcers && s.locks == map[] && limit > 0
             && NewestFirst(s.rows, Candidates(s.rows, account, newSession, now), order)
             && (newSession.Some? ==> newSession.value in ActiveSessions(s.rows, account, now))
    requires forall i :: 0 <= i < |mid| ==> !OtherScan(mid[i], pid)
    requires Commits(Run(account, before + [Start(pid, limit, newSession, now, order)] + mid), pid)
    ensures var es := before + [Start(pid, limit, newSession, now, order)] + mid;
            var base, s, t := Run(account, before).rows, Run(account, es), Run(account, es + [Commit(pid)]);
            var prior := ActiveSessions(base, account, now);
            && t.rows == WithoutSessions(s.rows, Claimed(base, account, limit, newSession, now))
            && prior * SessionIds(t.rows, account) == prior - Claimed(base, account, limit, newSession, now)
            && |prior * SessionIds(t.rows, account)| == Least(|prior|, limit)
            && (newSession.Some? ==> newSession.value in SessionIds(t.rows, account))
  {
    var start := Start(pid, limit, newSession, now, order);
    var base, es := Run(account, before).rows, before + [start] + mid;
    StartsUndisturbed(account, Run(account, before), start);
    RunMore(account, before, start);
    UndisturbedRun(account, before + [start], mid, base, pid, Keep(limit, newSession), order);
    RunMore(account, es, Commit(pid));
    AloneCommit(account, Run(account, es), base, pid, limit, newSession, now, order);
  }

  lemma {:induction false} StartsUndisturbed(account: Id, s: State, e: Event)
    requires e.Start? && e.pid !in s.enforcers && s.locks == map[]
    requires NewestFirst(s.rows, Candidates(s.rows, account, e.newSession, e.now), e.order)
    ensures Undisturbed(Step(account, s, e), s.rows, e.pid, Keep(e.limit, e.newSession), e.order)
    ensures forall i :: i in e.order ==> Key(Session, i) in s.rows
  {
    assert [] + e.order == e.order;
    assert forall i :: i in e.order ==> i in Elements(e.order);
  }

  lemma {:induction false} AloneCommit(
      account: Id, s: State, base: Table, pid: Pid, limit: nat, newSession: Option<Id>, now: Time, order: seq<Id>)
    requires Undisturbed(s, base, pid, Keep(limit, newSession), order) && Commits(s, pid) && limit > 0
    requires NewestFirst(base, Candidates(base, account, newSession, now), order)
    requires newSession.Some? ==> newSession.value in ActiveSessions(base, account, now)
    ensures var t, prior := Step(account, s, Commit(pid)), ActiveSessions(base, account, now);
            && t.rows == WithoutSessions(s.rows, Claimed(base, account, limit, newSession, now))
            && prior * SessionIds(t.rows, account) == prior - Claimed(base, account, limit, newSession, now)
            && |prior * SessionIds(t.rows, account)| == Least(|prior|, limit)
            && (newSession.Some? ==> newSession.value in SessionIds(t.rows, account))
  {
    AloneDooms(account, s.enforcers[pid], base, limit, newSession, now, order);
    CapMet(s.rows, base, account, limit, newSession, now);
  }

  lemma {:induction false} AloneDooms(
      account: Id, en: Enforcer, base: Table, limit: nat, newSession: Option<Id>, now: Time, order: seq<Id>)
    requires en.Scanning? && en.todo == [] && en.taken + en.todo == order && en.keep == Keep(limit, newSession)
    requires NewestFirst(base, Candidates(base, account, newSession, now), order)
    ensures Elements(Doomed(en)) == Claimed(base, account, limit, newSession, now)
  {
    assert en.taken == order;
    OffsetIsSurplus(base, Candidates(base, account, newSession, now), order, Keep(limit, newSession));
  }

  lemma {:induction false} CapMet(
      rows: Table, base: Table, account: Id, limit: nat, newSession: Option<Id>, now: Time)
    requires limit > 0 && forall k :: k in base ==> k in rows && rows[k] == base[k]
    requires newSession.Some? ==> newSession.value in ActiveSessions(base, account, now)
    ensures var claimed, prior := Claimed(base, account, limit, newSession, now), ActiveSessions(base, account, now);
            var left := SessionIds(WithoutSessions(rows, claimed), account);
            && prior * left == prior - claimed && |prior * left| == Least(|prior|, limit)
            && (newSession.Some? ==> newSession.value in left)
  {
    var claimed, prior := Claimed(base, account, limit, newSession, now), ActiveSessions(base, account, now);
    SessionsWithout(rows, account, claimed);
    forall i | i in prior ensures i in SessionIds(rows, account) { assert Key(Session, i) in base; }
    ClaimLeaves(base, account, limit, newSession, now);
    StaysOrGoes(prior, SessionIds(rows, account), claimed);
  }

  lemma {:induction false} StaysOrGoes(prior: set<Id>, stored: set<Id>, claimed: set<Id>)
    requires prior <= stored
    ensures prior * (stored - claimed) == prior - claimed
  {}

  lemma {:induction false} RunMore(account: Id, es: seq<Event>, e: Event)
    ensures Run(account, es + [e]) == Step(account, Run(account, es), e)
  {
    assert (es + [e])[..|es|] == es;
  }

  function Account(created: Time): Row { Row(Some(0), None, None, created, None) }

  /** A run of two enforcers over the sessions `rows`, and how far it has come. */
  ghost predicate Reached(es: seq<Event>, rows: Table, locks: map<Id, Pid>, e0: Enforcer, e1: Enforcer) {
    var s := Run(0, es);
    && s.rows == rows && s.locks == locks
    && 0 in s.enforcers && s.enforcers[0] == e0 && 1 in s.enforcers && s.enforcers[1] == e1
    && LimitOne(es)
  }

  ghost predicate LimitOne(es: seq<Event>) { forall i :: 0 <= i < |es| && es[i].Start? ==> es[i].limit == 1 }

  lemma {:induction false} ScanBy(
      es: seq<Event>, rows: Table, locks: map<Id, Pid>, e0: Enforcer, e1: Enforcer, pid: Pid, id: Id, rest: seq<Id>)
    returns (es': seq<Event>)
    requires Reached(es, rows, locks, e0, e1) && pid <= 1 && Key(Session, id) in rows
    requires e0.Scanning? && e1.Scanning? && (if pid == 0 then e0 else e1).todo == [id] + rest
    ensures var e := if pid == 0 then e0 else e1;
            var e' := if id in locks then e.(todo := rest) else e.(todo := rest, taken := e.taken + [id]);
            Reached(es', rows, if id in locks then locks else locks[id := pid],
                    if pid == 0 then e' else e0, if pid == 0 then e1 else e')
  {
    RunMore(0, es, Scan(pid));
    es' := es + [Scan(pid)];
    assert ([id] + rest)[1..] == rest;
  }

  lemma {:induction false} CommitBy(
      es: seq<Event>, rows: Table, locks: map<Id, Pid>, e0: Enforcer, e1: Enforcer, pid: Pid)
    returns (es': seq<Event>)
    requires Reached(es, rows, locks, e0, e1) && pid <= 1
    requires var e := if pid == 0 then e0 else e1; e.Scanning? && e.todo == []
    ensures var e := if pid == 0 then e0 else e1;
            Reached(es', WithoutSessions(rows, Elements(Doomed(e))), Released(locks, pid),
                    if pid == 0 then Done(e, Kept(e)) else e0, if pid == 0 then e1 else Done(e, Kept(e)))
  {
    RunMore(0, es, Commit(pid));
    es' := es + [Commit(pid)];
  }

  const ALL: set<Id> := {0, 1, 2}

  const THREE: Table :=
    map[Key(Session, 0) := Account(0), Key(Session, 1) := Account(1), Key(Session, 2) := Account(2)]

  const TWO: Table := map[Key(Session, 1) := Account(1), Key(Session, 2) := Account(2)]

  lemma {:induction false} ThreeLogins() returns (es: seq<Event>)
    ensures LimitOne(es) && Run(0, es) == State(THREE, map[], map[], [])
  {
    var e0, e1, e2 := Login(0, None, 0), Login(1, None, 1), Login(2, None, 2);
    RunMore(0, [], e0);
    RunMore(0, [e0], e1);
    RunMore(0, [e0, e1], e2);
    es := [e0, e1, e2];
    assert [] + [e0] == [e0] && [e0] + [e1] == [e0, e1] && [e0, e1] + [e2] == es;
  }

  lemma {:induction false} TwoStarts() returns (es: seq<Event>)
    ensures Reached(es, THREE, map[], Scanning(1, [2, 1, 0], [], ALL), Scanning(1, [2, 1, 0], [], ALL))
  {
    var logins := ThreeLogins();
    assert ActiveSessions(THREE, 0, 3) == {0, 1, 2} by {
      assert forall i :: i in {0, 1, 2} ==> Key(Session, i) in THREE;
    }
    assert Elements([2, 1, 0]) == {0, 1, 2};
    assert NewestFirst(THREE, Candidates(THREE, 0, None, 3), [2, 1, 0]);
    var first, second := Start(0, 1, None, 3, [2, 1, 0]), Start(1, 1, None, 3, [2, 1, 0]);
    RunMore(0, logins, first);
    RunMore(0, logins + [first], second);
    es := logins + [first] + [second];
  }

  lemma {:induction false} Interleaved() returns (es: seq<Event>)
    ensures Reached(es, THREE, map[2 := 0][1 := 1][0 := 0], Scanning(1, [], [2, 0], ALL), Scanning(1, [], [1], ALL))
  {
    var order := [2, 1, 0];
    assert order == [2] + [1, 0] && [1, 0] == [1] + [0] && [0] == [0] + [];
    es := TwoStarts();
    es := ScanBy(es, THREE, map[], Scanning(1, order, [], ALL), Scanning(1, order, [], ALL), 0, 2, [1, 0]);
    var locks := map[2 := 0];
    es := ScanBy(es, THREE, locks, Scanning(1, [1, 0], [2], ALL), Scanning(1, order, [], ALL), 1, 2, [1, 0]);
    es := ScanBy(es, THREE, locks, Scanning(1, [1, 0], [2], ALL), Scanning(1, [1, 0], [], ALL), 1, 1, [0]);
    locks := locks[1 := 1];
    es := ScanBy(es, THREE, locks, Scanning(1, [1, 0], [2], ALL), Scanning(1, [0], [1], ALL), 0, 1, [0]);
    es := ScanBy(es, THREE, locks, Scanning(1, [0], [2], ALL), Scanning(1, [0], [1], ALL), 0, 0, []);
    locks := locks[0 := 0];
    assert [2] + [0] == [2, 0];
    es := ScanBy(es, THREE, locks, Scanning(1, [], [2, 0], ALL), Scanning(1, [0], [1], ALL), 1, 0, []);
  }

  /** Interleaved enforcers need not reach the cap: two of them with limit 1, each locking a row
      the other then passes over, finish and leave two sessions. */
  lemma {:induction false} CapMayBeMissed() returns (es: seq<Event>)
    ensures Reached(es, TWO, map[], Finished(1, ALL, [2]), Finished(1, ALL, [1]))
    ensures |SessionIds(Run(0, es).rows, 0)| == 2
  {
    es := FirstCommits();
    var locks := Released(map[2 := 0][1 := 1][0 := 0], 0);
    es := CommitBy(es, TWO, locks, Finished(1, ALL, [2]), Scanning(1, [], [1], ALL), 1);
    assert Doomed(Scanning(1, [], [1], ALL)) == [] && Elements([]) == {} && WithoutSessions(TWO, {}) == TWO;
    assert Released(locks, 1) == map[];
    TwoLeft();
  }

  lemma {:induction false} FirstCommits() returns (es: seq<Event>)
    ensures Reached(es, TWO, Released(map[2 := 0][1 := 1][0 := 0], 0), Finished(1, ALL, [2]), Scanning(1, [], [1], ALL))
  {
    es := Interleaved();
    var locks := map[2 := 0][1 := 1][0 := 0];
    es := CommitBy(es, THREE, locks, Scanning(1, [], [2, 0], ALL), Scanning(1, [], [1], ALL), 0);
    assert Doomed(Scanning(1, [], [2, 0], ALL)) == [0] && Elements([0]) == {0} && WithoutSessions(THREE, {0}) == TWO;
  }

  lemma {:induction false} TwoLeft()
    ensures |SessionIds(TWO, 0)| == 2
  {
    assert SessionIds(TWO, 0) == {1, 2} by {
      assert forall i :: i in {1, 2} ==> Key(Session, i) in TWO;
    }
  }
}
