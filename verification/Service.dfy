/** The file service itself, one call at a time against its stores. Its ghost trace is a serial
    run of the protocol that ends in the state of the stores, so what is proved of those runs
    holds of the service. */
module Service {
  import opened Basics
  import opened Text
  import opened Parts
  import opened Completion
  import opened ObjectKeys
  import opened Model
  import opened Protocol
  import opened Invariants
  import opened History
  import opened Serializability
  import opened Agreement
  import opened Ordering
  import opened Listing
  import opened Stores
  import opened Answers

  /** Step `l` of call `op` went the way the surroundings answered. */
  predicate Faithful(l: Label, op: nat, env: Env) {
    match l
    case Begin(p, _) => p == op
    case Read(p, grant, dbOk, id, now) =>
      p == op && id == env.id && now == env.now
      && ((grant == env.grant && dbOk == env.dbOk) || (grant == env.grantAgain && dbOk == env.dbOkAgain))
    case OpenSession(p, outcome, uploadId) => p == op && outcome == env.open && uploadId == env.uploadId
    case Insert(p, tx) => p == op && (tx == Effect(env.tx, true) || tx == Effect(env.tx, false))
    case Undo(p, outcome) => p == op && outcome == env.undo
    case Finish(p, outcome, size, keeps) =>
      p == op && outcome == env.finish && size == env.size && keeps == env.keepsChecksum
    case Stat(p, ok, now) => p == op && ok == env.statOk && now == env.later
    case AbortSession(p, outcome, now) => p == op && outcome == env.release && now == env.later
    case Remove(p, outcome, now) => p == op && outcome == env.release && now == env.later
    case Update(p, tx) =>
      p == op && (tx == Effect(env.tx, true) || tx == Effect(env.tx, false)
                  || tx == Effect(env.tx2, true) || tx == Effect(env.tx2, false))
    case Sign(p, ok) => p == op && ok == env.signOk
    case Crash(_) => false
    case Put(_) => false
  }

  /** The trace went on from `from` to `to` by steps of call `op`, as the surroundings answered. */
  ghost predicate Follows(from: seq<Label>, to: seq<Label>, op: nat, env: Env) {
    from <= to && forall i :: |from| <= i < |to| ==> Faithful(to[i], op, env)
  }

  lemma FollowsThen(a: seq<Label>, b: seq<Label>, c: seq<Label>, op: nat, env: Env)
    requires Follows(a, b, op, env) && (Follows(b, c, op, env) || b == c)
    ensures Follows(a, c, op, env)
  {
    hide Faithful;
  }

  lemma OneStepFollows(from: seq<Label>, l: Label, op: nat, env: Env)
    requires Faithful(l, op, env)
    ensures Follows(from, from + [l], op, env)
  {
    hide Faithful;
  }

  lemma FinishesFaithfully(op: nat, env: Env)
    ensures Faithful(Finish(op, env.finish, env.size, env.keepsChecksum), op, env)
  {
  }

  /** The storage call and the transaction of a cleanup step both report success. */
  predicate Cleans(env: Env) {
    env.release == Done && Effect(env.tx, true) == Committed
  }

  /** The row was changed, reported or not. */
  predicate Expires(env: Env) {
    env.release == Done && Effect(env.tx, true) != RolledBack
  }

  function CountCleans(envs: seq<Env>, n: nat): nat
    requires n <= |envs|
  {
    if n == 0 then 0 else CountCleans(envs, n - 1) + (if Cleans(envs[n - 1]) then 1 else 0)
  }

  function CountExpires(envs: seq<Env>, n: nat): nat
    requires n <= |envs|
  {
    if n == 0 then 0 else CountExpires(envs, n - 1) + (if Expires(envs[n - 1]) then 1 else 0)
  }

  /** Of the listed files the first `n` have been dealt with: those whose storage call and
      transaction went through are expired one version on, every other row is as it was. */
  ghost predicate CleanedUpTo(rows: map<string, Metadata>, after: map<string, Metadata>, files: seq<Metadata>,
                              envs: seq<Env>, n: nat)
    requires n <= |files| <= |envs|
  {
    after.Keys == rows.Keys && FilesCleaned(after, files, envs, n) && OthersKept(rows, after, files)
  }

  ghost predicate FilesCleaned(after: map<string, Metadata>, files: seq<Metadata>, envs: seq<Env>, n: nat)
    requires n <= |files| <= |envs|
  {
    forall i :: 0 <= i < |files| ==>
      && files[i].id in after
      && after[files[i].id] == (if i < n && Expires(envs[i]) then ExpiredRow(files[i], envs[i].later) else files[i])
  }

  ghost predicate OthersKept(rows: map<string, Metadata>, after: map<string, Metadata>, files: seq<Metadata>)
    requires after.Keys == rows.Keys
  {
    forall id :: id in after && after[id] != rows[id] ==> rows[id] in files
  }

  lemma NothingCleanedYet(rows: map<string, Metadata>, files: seq<Metadata>, envs: seq<Env>)
    requires |files| <= |envs| && forall i :: 0 <= i < |files| ==> files[i].id in rows && rows[files[i].id] == files[i]
    ensures CleanedUpTo(rows, rows, files, envs, 0)
  {
  }

  ghost predicate DistinctFiles(files: seq<Metadata>) {
    forall i, j :: 0 <= i < j < |files| ==> files[i].id != files[j].id
  }

  lemma OneMoreCleaned(rows: map<string, Metadata>, before: map<string, Metadata>, after: map<string, Metadata>,
                       files: seq<Metadata>, envs: seq<Env>, i: nat)
    requires i < |files| <= |envs| && CleanedUpTo(rows, before, files, envs, i) && DistinctFiles(files)
    requires files[i].id in rows && rows[files[i].id] == files[i]
    requires after == if Expires(envs[i]) then before[files[i].id := ExpiredRow(files[i], envs[i].later)] else before
    ensures CleanedUpTo(rows, after, files, envs, i + 1)
  {
    hide FilesCleaned;
    hide OthersKept;
    hide DistinctFiles;
    FilesStillCleaned(before, after, files, envs, i);
    OthersStillKept(rows, before, after, files, i);
  }

  lemma FilesStillCleaned(before: map<string, Metadata>, after: map<string, Metadata>, files: seq<Metadata>, envs: seq<Env>, i: nat)
    requires i < |files| <= |envs| && FilesCleaned(before, files, envs, i) && DistinctFiles(files)
    requires after == if Expires(envs[i]) then before[files[i].id := ExpiredRow(files[i], envs[i].later)] else before
    ensures FilesCleaned(after, files, envs, i + 1)
  {
    hide ExpiredRow;
    hide Expires;
    hide DistinctFiles;
    OtherFiles(files, i);
  }

  lemma OthersStillKept(rows: map<string, Metadata>, before: map<string, Metadata>, after: map<string, Metadata>,
                        files: seq<Metadata>, i: nat)
    requires before.Keys == rows.Keys == after.Keys && OthersKept(rows, before, files) && i < |files|
    requires files[i].id in rows && rows[files[i].id] == files[i]
    requires forall id :: id in before && id != files[i].id ==> after[id] == before[id]
    ensures OthersKept(rows, after, files)
  {
  }

  lemma OtherFiles(files: seq<Metadata>, i: nat)
    requires DistinctFiles(files) && i < |files|
    ensures forall j :: 0 <= j < |files| && j != i ==> files[j].id != files[i].id
  {
  }

  lemma NextToClean(rows: map<string, Metadata>, after: map<string, Metadata>, files: seq<Metadata>, envs: seq<Env>, i: nat)
    requires i < |files| <= |envs| && CleanedUpTo(rows, after, files, envs, i)
    ensures files[i].id in after && after[files[i].id] == files[i]
  {
  }

  lemma DueIs(files: seq<Metadata>, now: int)
    ensures (forall i :: 0 <= i < |files| ==> DueForCleanup(files[i], now)) <==>
              forall i :: 0 <= i < |files| ==>
                files[i].status == PendingUpload && files[i].expiresAt.Some? && files[i].expiresAt.value <= now
  {
  }

  lemma OnlyListedChange(rows: map<string, Metadata>, after: map<string, Metadata>, files: seq<Metadata>, envs: seq<Env>, now: int)
    requires |files| <= |envs| && CleanedUpTo(rows, after, files, envs, |files|)
    requires forall i :: 0 <= i < |files| ==> files[i].id in rows && rows[files[i].id] == files[i]
    requires forall i :: 0 <= i < |files| ==>
               files[i].status == PendingUpload && files[i].expiresAt.Some? && files[i].expiresAt.value <= now
    requires forall id :: id in rows ==> rows[id].id == id
    ensures after.Keys == rows.Keys
    ensures forall id :: id in after && after[id] != rows[id] ==>
              && rows[id].status == PendingUpload && rows[id].expiresAt.Some? && rows[id].expiresAt.value <= now
              && after[id].status == Expired && after[id].version == rows[id].version + 1
  {
    hide Expires;
    forall id | id in after && after[id] != rows[id]
      ensures rows[id].status == PendingUpload && rows[id].expiresAt.Some? && rows[id].expiresAt.value <= now
      ensures after[id].status == Expired && after[id].version == rows[id].version + 1
    {
      var i :| 0 <= i < |files| && files[i] == rows[id];
      assert files[i].id == id && after[files[i].id] == after[id];
    }
  }

  lemma BatchFacts(rows: map<string, Metadata>, now: int, limit: nat)
    requires WellKeyed(rows)
    ensures var files := Batch(rows, now, limit);
            && |files| <= limit
            && (forall i :: 0 <= i < |files| ==>
                  files[i].id in rows && rows[files[i].id] == files[i] && DueForCleanup(files[i], now))
            && (forall i :: 0 <= i < |files| ==>
                  files[i].status == PendingUpload && files[i].expiresAt.Some? && files[i].expiresAt.value <= now)
            && DistinctFiles(files)
  {
    var files := Batch(rows, now, limit);
    SoonerOrders(Due(rows, now));
    OrderedIsSorted(Sooner, Due(rows, now));
    var q := Queue(rows, now);
    forall i | 0 <= i < |files|
      ensures files[i].id in rows && rows[files[i].id] == files[i] && DueForCleanup(files[i], now)
    {
      assert files[i] == q[i] && q[i] in q;
    }
    forall i, j | 0 <= i < j < |files| ensures files[i].id != files[j].id {
      assert Sooner(q[i], q[j]) && files[i] == q[i] && files[j] == q[j];
      StrLessTotal(q[i].id, q[j].id);
    }
  }

  /** Without failures and at a fixed clock, a cleanup run is one step of the drain. */
  lemma CleanRunIsDrainStep(rows: map<string, Metadata>, after: map<string, Metadata>, now: int, limit: nat, envs: seq<Env>)
    requires WellKeyed(rows) && |envs| >= |Batch(rows, now, limit)|
    requires CleanedUpTo(rows, after, Batch(rows, now, limit), envs, |Batch(rows, now, limit)|)
    requires forall i :: 0 <= i < |envs| ==> Expires(envs[i]) && envs[i].later == now
    ensures after == ExpireAll(rows, Batch(rows, now, limit), now) == Drain(rows, now, limit, 1)
  {
    BatchFacts(rows, now, limit);
    hide Batch;
    assert Drain(rows, now, limit, 0) == rows;
  }

  lemma {:induction false} AppendSerial(w: World, run: seq<Label>, l: Label)
    requires IsRun(w, run) && SerialRun(w, run) && Enabled(After(w, run), l) && (l.Begin? ==> Quiet(After(w, run)))
    ensures SerialRun(w, run + [l])
    decreases |run|
  {
    hide Enabled;
    hide Apply;
    hide Quiet;
    if run == [] {
      assert run + [l] == [l] && [l][1..] == [];
      assert SerialRun(Apply(w, l), []);
    } else {
      assert (run + [l])[1..] == run[1..] + [l];
      AppendSerial(Apply(w, run[0]), run[1..], l);
    }
  }

  lemma InvKeysWell(w: World)
    requires Inv(w)
    ensures WellKeyed(w.rows)
  {
    hide OutboxOk;
    hide KeysUnique;
    hide OpsOk;
    forall id | id in w.rows ensures w.rows[id].id == id {
      RowIsSnapshot(w, id);
    }
  }

  lemma SerialRunSerializes(run: seq<Label>)
    requires IsRun(EMPTY, run) && SerialRun(EMPTY, run)
    ensures RunLog(Tables(map[], []), After(EMPTY, run).log) == TablesOf(After(EMPTY, run))
  {
    hide Inv;
    hide IsRun;
    hide SerialRun;
    hide FreshRun;
    hide After;
    EmptyInv();
    SerialRunIsFresh(EMPTY, run);
    FreshRunSerializes(EMPTY, run);
  }

  /** The transaction commits and says so. */
  predicate Succeeds(f: TxFaults) {
    f.begin && f.write && f.event && f.commit == Committed
  }

  predicate WellFormed(call: Call) {
    call.req.Report? ==> call.req.result == ScanClean || call.req.result == ScanInfected
  }

  lemma GateNeedsCaller(caller: Option<Principal>, t: Target, wellFormed: bool, grant: Grant, dbOk: bool, rows: map<string, Metadata>)
    ensures var g := Gate(caller, t, wellFormed, grant, dbOk, rows);
            g.Ok? ==> caller.Some? && wellFormed && t.id in rows && rows[t.id] == g.value
  {
    hide TrimSpace;
  }

  lemma Restamped(v: Metadata, base: Metadata)
    requires v == base.(status := v.status, scan := v.scan, updatedAt := v.updatedAt, updatedBy := v.updatedBy)
    ensures Restamps(v, base)
  {
  }

  lemma KeyAsRequested(rows: map<string, Metadata>, v: Metadata, u: Upload)
    requires HasRequestedKey(v, u)
    ensures forall id :: id in rows ==>
              (HasRequestedKey(rows[id], u) <==> HasKey(rows[id], v.tenant, v.application, v.idempotencyKey))
    ensures KeyTaken(rows, v.tenant, v.application, v.idempotencyKey) <==> exists id :: id in rows && HasRequestedKey(rows[id], u)
  {
    hide TrimSpace;
  }

  lemma CleanEffect(v: Metadata, env: Env)
    ensures var done := Stamped(v, Expired, v.scan, "system:file-lifecycle", env.later);
            && done == ExpiredRow(v, env.later) && done.id == v.id
            && (Reply(env.tx, true, done).Row? <==> Effect(env.tx, true) == Committed) && !Reply(env.tx, true, done).Url?
            && (TakesEffect(env.tx, true) <==> Effect(env.tx, true) != RolledBack)
  {
  }

  /** The tests the code makes on part size and count come to this. */
  lemma CountRange(size: Int64, requested: Int64)
    ensures var partSize := EffectivePartSize(requested);
            PartsFit(size, partSize) <==>
              && MIN_PART_SIZE <= partSize <= MAX_PART_SIZE
              && size > 0 && 1 <= ComputedCount(size, partSize) <= MAX_PARTS
  {
    FitsAre(size, requested);
    hide ComputedCount;
    hide PartsFit;
  }

  /** A row that is answered has been written. */
  lemma CommittedRow(s: State, f: TxFaults, current: bool, row: Metadata)
    ensures !Reply(f, current, row).Url?
    ensures Reply(f, current, row).Row? ==>
      && current && Reply(f, current, row) == Row(row)
      && row.id in Write(s, f, current, row).rows && Write(s, f, current, row).rows[row.id] == row
  {
  }

  class FileService {
    const repo: SQLRepository
    const store: ObjectStore
    const cfg: Config

    ghost var world: World
    ghost var trace: seq<Label>
    ghost var next: nat

    /** The trace so far is a serial run from nothing to `world`. */
    ghost predicate Tracked()
      reads this
    {
      IsRun(EMPTY, trace) && SerialRun(EMPTY, trace) && world == After(EMPTY, trace)
    }

    ghost predicate InSync()
      reads this, repo, store
    {
      && repo.rows == world.rows && repo.outbox == world.outbox
      && store.objects == world.objects && store.sessions == world.sessions
    }

    ghost predicate Valid()
      reads this, repo, store
    {
      Tracked() && InSync() && Quiet(world) && forall p :: p in world.ops ==> p < next
    }

    /** In the middle of call `op`. */
    ghost predicate Serving(op: nat, o: Op)
      reads this, repo, store
    {
      Tracked() && InSync() && op in world.ops && world.ops[op] == o
    }

    /** What the stores hold. */
    ghost function Contents(): State
      reads repo, store
    {
      State(repo.rows, repo.outbox, store.objects, store.sessions)
    }

    constructor (cfg: Config)
      ensures Valid() && fresh(repo) && fresh(store) && this.cfg == cfg && trace == []
    {
      this.cfg := cfg;
      this.repo := new SQLRepository();
      this.store := new ObjectStore();
      world, trace, next := EMPTY, [], 0;
    }

    lemma TrackedInv()
      requires Tracked()
      ensures Inv(world) && WellKeyed(world.rows)
    {
      hide Inv;
      EmptyInv();
      RunKeepsInv(EMPTY, trace);
      InvKeysWell(world);
    }

    lemma RowsKnowTheirId()
      requires Tracked() && InSync()
      ensures WellKeyed(repo.rows)
    {
      TrackedInv();
    }

    /** What the proofs about runs say of the stores of a service at rest. */
    lemma StoresAreSound(id: string)
      requires Valid() && id in repo.rows
      ensures repo.rows[id].status == Ready ==> Stored(store.objects, repo.rows[id])
      ensures |EventsOf(repo.outbox, id)| == repo.rows[id].version >= 1
      ensures Tells(EventsOf(repo.outbox, id)[repo.rows[id].version - 1], repo.rows[id])
      ensures EventsOf(repo.outbox, id)[repo.rows[id].version - 1] == Project(repo.rows[id])
      ensures RunLog(Tables(map[], []), world.log) == Tables(repo.rows, repo.outbox)
    {
      hide IsRun;
      hide SerialRun;
      hide After;
      hide EventsOf;
      hide Stored;
      hide RunLog;
      SerialRunSerializes(trace);
      ReadyRowsHaveTheirObject(trace, id);
      ReachedBy(trace);
      hide Reachable;
      OutboxIsHistory(world, id);
    }

    ghost method Advance(l: Label)
      requires Tracked() && Enabled(world, l) && (l.Begin? ==> Quiet(world))
      modifies `world, `trace
      ensures Tracked() && world == Apply(old(world), l) && trace == old(trace) + [l]
    {
      Snoc(EMPTY, trace, l);
      AppendSerial(EMPTY, trace, l);
      world, trace := Apply(world, l), trace + [l];
    }

    /** Takes call `req` up. */
    ghost method Launch(call: Call)
      requires Valid()
      modifies `world, `trace, `next
      ensures next == old(next) + 1 && trace == old(trace) + [Begin(old(next), call)]
      ensures Serving(old(next), Op(call, Start)) && world.ops == old(world.ops)[old(next) := Op(call, Start)]
    {
      BeginAtStart(world, next, call);
      TablesMoveOnlyBy(world, Begin(next, call));
      Advance(Begin(next, call));
      next := next + 1;
    }

    /** The checks and the read a call starts with. */
    ghost method AdvanceRead(op: nat, o: Op, grant: Grant, dbOk: bool, id: string, now: int)
      requires Serving(op, o) && IsUuid(id)
      requires o.pc == Start || (o.pc == Reread && o.call.req.CompleteMultipart?)
      modifies `world, `trace
      ensures Serving(op, Op(o.call, AfterRead(repo.rows, o, grant, dbOk, id, now)))
      ensures world.ops == old(world.ops)[op := world.ops[op]]
      ensures trace == old(trace) + [Read(op, grant, dbOk, id, now)]
    {
      hide AfterRead;
      Advance(Read(op, grant, dbOk, id, now));
    }

    /** The transaction around an update and its event. */
    method CommitUpdate(ghost op: nat, ghost call: Call, ghost base: Metadata, v: Metadata, expected: int,
                        ghost info: Option<ObjectInfo>, f: TxFaults)
      returns (r: TxResult)
      requires Serving(op, Op(call, ToUpdate(base, v, expected, info)))
      modifies `world, `trace, repo
      ensures Tracked() && InSync() && op in world.ops && world.ops == old(world.ops)[op := world.ops[op]]
      ensures var can := CanUpdate(old(world), v, expected);
              var tx := Effect(f, can);
              && trace == old(trace) + [Update(op, tx)]
              && repo.rows == (if can && tx != RolledBack then old(repo.rows)[v.id := DbUpdate(old(repo.rows)[v.id], v)]
                               else old(repo.rows))
              && repo.outbox == old(repo.outbox) +
                   (if can && tx != RolledBack then [Project(v.(version := expected + 1))] else [])
              && r == (if tx == RolledBack then TxError else if !can then TxStale else if tx == Committed then TxOk else TxError)
              && world.ops[op] == Op(call,
                   if r == TxStale then Returned(Failed(StaleVersion))
                   else if r == TxError then Returned(Failed(Internal))
                   else if call.req.Delete? && v.status == Deleting then ToRemove(v.(version := expected + 1))
                   else Returned(Row(v.(version := expected + 1))))
    {
      hide DbUpdate;
      hide Project;
      hide Tracked;
      assert op in world.ops && world.ops[op].pc.ToUpdate?;
      ghost var tx := Effect(f, CanUpdate(world, v, expected));
      r := repo.WithinUpdate(v, expected, f);
      AdvanceUpdate(op, call, base, v, expected, info, tx);
    }

    /** The same for a row whose status, scan status, time and author change. */
    method CommitStamped(ghost op: nat, ghost call: Call, ghost base: Metadata, v: Metadata, expected: int,
                         ghost info: Option<ObjectInfo>, f: TxFaults)
      returns (r: Response)
      requires Serving(op, Op(call, ToUpdate(base, v, expected, info)))
      requires base.id in repo.rows && repo.rows[base.id] == base && Restamps(v, base)
      modifies `world, `trace, repo
      ensures Tracked() && InSync() && op in world.ops && world.ops == old(world.ops)[op := world.ops[op]]
      ensures exists current :: trace == old(trace) + [Update(op, Effect(f, current))]
      ensures var row := Stamped(base, v.status, v.scan, v.updatedBy, v.updatedAt);
              && r == Reply(f, expected == base.version, row)
              && Contents() == Write(old(Contents()), f, expected == base.version, row)
              && world.ops[op] == Op(call,
                   if r.Row? && call.req.Delete? && v.status == Deleting then ToRemove(row) else Returned(r))
    {
      hide Tracked;
      hide DbUpdate;
      hide Project;
      hide Effect;
      hide TakesEffect;
      hide Reply;
      hide Stamped;
      hide Restamps;
      StampedUpdate(v, base);
      EffectIs(f, expected == base.version, Stamped(base, v.status, v.scan, v.updatedBy, v.updatedAt));
      var res := CommitUpdate(op, call, base, v, expected, info, f);
      r := if res == TxStale then Failed(StaleVersion) else if res == TxError then Failed(Internal)
           else Row(v.(version := expected + 1));
    }

    /** The commit an operation ends with. */
    method CommitLast(ghost op: nat, ghost call: Call, ghost base: Metadata, v: Metadata, expected: int,
                      ghost info: Option<ObjectInfo>, f: TxFaults, ghost env: Env)
      returns (r: Response)
      requires Serving(op, Op(call, ToUpdate(base, v, expected, info)))
      requires !(call.req.Delete? && v.status == Deleting) && (f == env.tx || f == env.tx2)
      requires base.id in repo.rows && repo.rows[base.id] == base && Restamps(v, base)
      modifies `world, `trace, repo
      ensures Serving(op, Op(call, Returned(r))) && world.ops == old(world.ops)[op := world.ops[op]]
      ensures Follows(old(trace), trace, op, env)
      ensures var row := Stamped(base, v.status, v.scan, v.updatedBy, v.updatedAt);
              && r == Reply(f, expected == base.version, row)
              && Contents() == Write(old(Contents()), f, expected == base.version, row)
    {
      hide Tracked;
      hide Stamped;
      hide Restamps;
      hide Reply;
      hide Write;
      hide Effect;
      r := CommitStamped(op, call, base, v, expected, info, f);
    }

    ghost method AdvanceUpdate(op: nat, call: Call, base: Metadata, v: Metadata, expected: int,
                               info: Option<ObjectInfo>, tx: TxOutcome)
      requires Tracked() && op in world.ops && world.ops[op] == Op(call, ToUpdate(base, v, expected, info))
      modifies `world, `trace
      ensures Tracked() && trace == old(trace) + [Update(op, tx)]
      ensures world == DoUpdate(old(world), op, tx)
    {
      Advance(Update(op, tx));
    }

    /** Releases the object of the row. */
    method RemoveObject(ghost op: nat, ghost call: Call, v: Metadata, outcome: Outcome, now: int) returns (ok: bool)
      requires Serving(op, Op(call, ToRemove(v)))
      modifies `world, `trace, store
      ensures Serving(op, Op(call, AfterRelease(call, v, outcome, now))) && (ok <==> outcome == Done)
      ensures world.ops == old(world.ops)[op := world.ops[op]] && trace == old(trace) + [Remove(op, outcome, now)]
      ensures world.rows == old(world.rows) && Contents() == Without(old(Contents()), v.objectKey, outcome)
    {
      hide AfterRelease;
      hide Tracked;
      assert Enabled(world, Remove(op, outcome, now)) && Tracked();
      ok := store.Remove(v.objectKey, outcome);
      Advance(Remove(op, outcome, now));
    }

    method AbortUpload(ghost op: nat, ghost call: Call, v: Metadata, outcome: Outcome, ghost now: int) returns (ok: bool)
      requires Serving(op, Op(call, ToAbort(v)))
      modifies `world, `trace, store
      ensures Serving(op, Op(call, AfterRelease(call, v, outcome, now))) && (ok <==> outcome == Done)
      ensures world.ops == old(world.ops)[op := world.ops[op]] && trace == old(trace) + [AbortSession(op, outcome, now)]
      ensures world.rows == old(world.rows) && Contents() == Closing(old(Contents()), v.uploadId, outcome, Aborted)
    {
      hide AfterRelease;
      hide Tracked;
      assert Enabled(world, AbortSession(op, outcome, now)) && Tracked();
      ok := store.AbortMultipart(v.uploadId, outcome);
      Advance(AbortSession(op, outcome, now));
    }

    /** Signs a URL for the row. */
    method SignUrl(ghost op: nat, ghost call: Call, v: Metadata, ok: bool) returns (r: Response)
      requires Serving(op, Op(call, ToSign(v)))
      modifies `world, `trace
      ensures Serving(op, Op(call, Returned(r))) && r == (if ok then Url(v) else Failed(Unavailable))
      ensures world.ops == old(world.ops)[op := world.ops[op]] && trace == old(trace) + [Sign(op, ok)]
    {
      Advance(Sign(op, ok));
      r := if ok then Url(v) else Failed(Unavailable);
    }

    /** The insert transaction of an initiation. */
    method CommitInsert(ghost op: nat, ghost call: Call, v: Metadata, f: TxFaults) returns (r: TxResult)
      requires Serving(op, Op(call, ToInsert(v)))
      modifies `world, `trace, repo
      ensures Tracked() && InSync() && op in world.ops && world.ops == old(world.ops)[op := world.ops[op]]
      ensures exists found :: trace == old(trace) + [Insert(op, Effect(f, found))]
      ensures world.sessions == old(world.sessions)
      ensures r == TxOk || r == TxError
      ensures !KeyTaken(old(repo.rows), v.tenant, v.application, v.idempotencyKey) ==>
        && Contents() == Write(old(Contents()), f, v.id !in old(repo.rows), v)
        && (r == TxOk <==> Reply(f, v.id !in old(repo.rows), v).Row?)
      ensures world.ops[op] == Op(call,
                if r == TxOk then (if v.mode == Single then ToSign(v) else Returned(Row(v)))
                else if v.mode == Single then Returned(Failed(Internal)) else ToUndo(v))
    {
      hide Project;
      hide Tracked;
      hide KeyTaken;
      assert op in world.ops && world.ops[op].pc.ToInsert?;
      ghost var found := CanInsert(world, v);
      EffectIs(f, v.id !in repo.rows, v);
      r := repo.WithinInsert(v, f);
      AdvanceInsert(op, call, v, Effect(f, found));
    }

    ghost method AdvanceInsert(op: nat, call: Call, v: Metadata, tx: TxOutcome)
      requires Tracked() && op in world.ops && world.ops[op] == Op(call, ToInsert(v))
      modifies `world, `trace
      ensures Tracked() && trace == old(trace) + [Insert(op, tx)]
      ensures world == DoInsert(old(world), op, tx)
    {
      Advance(Insert(op, tx));
    }

    lemma QuietAgain(before: World, op: nat, call: Call, r: Response)
      requires Tracked() && InSync() && Quiet(before)
      requires world.ops == before.ops[op := Op(call, Returned(r))]
      requires next > op && forall p :: p in before.ops ==> p < next
      ensures Valid()
    {
    }

    /** What every operation on an existing file begins with: caller, tenant and application
        checks, then the read. */
    method LoadRow(ghost op: nat, call: Call, ghost pc: Pc, t: Target, grant: Grant, dbOk: bool, ghost env: Env)
      returns (r: Result<Metadata>)
      requires Serving(op, Op(call, pc)) && IsUuid(env.id)
      requires call.req.Complete? || call.req.CompleteMultipart? || call.req.Abort? || call.req.Report?
               || call.req.Delete? || call.req.Download? || call.req.AuthorizePart?
      requires call.req.target == t && (pc == Start || (pc == Reread && call.req.CompleteMultipart?))
      modifies `world, `trace
      ensures trace == old(trace) + [Read(op, grant, dbOk, env.id, env.now)]
      ensures r == Gate(call.caller, t, WellFormed(call), grant, dbOk, repo.rows)
      ensures r.Ok? ==> Admission(call, grant).None?
      ensures r.Ok? ==> call.caller.Some? && t.id in repo.rows && repo.rows[t.id] == r.value
      ensures Serving(op, Op(call,
                if r.Err? then Returned(Failed(r.error))
                else if pc == Reread then AfterCompleteGet(r.value, call.req.expected)
                else AfterGet(call, r.value, env.now)))
      ensures world.ops == old(world.ops)[op := world.ops[op]]
    {
      hide Tracked;
      hide AfterGet;
      hide Admission;
      hide Gate;
      GateIs(call, WellFormed(call), grant, dbOk, repo.rows);
      GateNeedsCaller(call.caller, t, WellFormed(call), grant, dbOk, repo.rows);
      AdvanceRead(op, Op(call, pc), grant, dbOk, env.id, env.now);
      var denied := Admission(call, grant);
      if denied.Some? {
        return Err(denied.value);
      }
      if !dbOk {
        return Err(Internal);
      }
      var found := repo.Get(t);
      r := if found.None? then Err(NotFound) else Ok(found.value);
    }

    /** Takes up a call on an existing file. */
    method Admit(call: Call, t: Target, env: Env) returns (r: Result<Metadata>)
      requires Valid() && IsUuid(env.id)
      requires call.req.Complete? || call.req.CompleteMultipart? || call.req.Abort? || call.req.Report?
               || call.req.Delete? || call.req.Download? || call.req.AuthorizePart?
      requires call.req.target == t
      modifies `world, `trace, `next
      ensures next == old(next) + 1 && Follows(old(trace), trace, old(next), env)
      ensures r == Gate(call.caller, t, WellFormed(call), env.grant, env.dbOk, repo.rows)
      ensures r.Ok? ==> call.caller.Some? && t.id in repo.rows && repo.rows[t.id] == r.value && r.value.id == t.id
      ensures Serving(old(next), Op(call, if r.Err? then Returned(Failed(r.error)) else AfterGet(call, r.value, env.now)))
      ensures world.ops == old(world.ops)[old(next) := world.ops[old(next)]]
    {
      hide Tracked;
      hide AfterGet;
      hide Admission;
      hide Gate;
      RowsKnowTheirId();
      ghost var op := next;
      Launch(call);
      r := LoadRow(op, call, Start, t, env.grant, env.dbOk, env);
    }

    method Delete(caller: Option<Principal>, t: Target, expected: int, env: Env) returns (r: Response)
      requires Valid() && IsUuid(env.id)
      modifies this, repo, store
      ensures Valid() && next == old(next) + 1
      ensures world.ops == old(world.ops)[old(next) := Op(Call(caller, cfg, Request.Delete(t, expected)), Returned(r))]
      ensures Follows(old(trace), trace, old(next), env)
      ensures var g := Gate(caller, t, true, env.grant, env.dbOk, old(repo.rows));
              && (g.Err? ==> r == Failed(g.error) && Contents() == old(Contents()))
              && (g.Ok? ==> DeleteAnswer(old(Contents()), Contents(), r, g.value, caller.value.id, expected, env))
      // a retried deletion goes through, and so does a first one at the current version
      ensures var g := Gate(caller, t, true, env.grant, env.dbOk, old(repo.rows));
              g.Ok? && g.value.status == Deleting && expected >= 1 && env.release == Done && Succeeds(env.tx2) ==>
                && t.id in repo.rows && repo.rows[t.id] == Stamped(g.value, Deleted, g.value.scan, caller.value.id, env.later)
                && g.value.objectKey !in store.objects && r == Row(repo.rows[t.id])
      ensures var g := Gate(caller, t, true, env.grant, env.dbOk, old(repo.rows));
              g.Ok? && g.value.status != Deleting && g.value.status != Deleted && expected == g.value.version >= 1
              && Succeeds(env.tx) && env.release == Done && Succeeds(env.tx2) ==>
                && t.id in repo.rows && repo.rows[t.id].status == Deleted && repo.rows[t.id].version == g.value.version + 2
                && g.value.objectKey !in store.objects && r == Row(repo.rows[t.id])
    {
      hide Tracked;
      hide Follows;
      hide Admission;
      hide AfterGet;
      hide Gate;
      var call := Call(caller, cfg, Request.Delete(t, expected));
      ghost var op, before := next, world;
      var loaded := Admit(call, t, env);
      ghost var admitted := trace;
      if loaded.Err? {
        r := Failed(loaded.error);
      } else {
        r := DeleteFound(op, call, t, loaded.value, expected, env);
      }
      FollowsThen(old(trace), admitted, trace, op, env);
      QuietAgain(before, op, call, r);
    }

    /** Delete, from the row it has read. */
    method DeleteFound(ghost op: nat, call: Call, ghost t: Target, read: Metadata, expected: int, env: Env)
      returns (r: Response)
      requires call.req == Request.Delete(t, expected) && call.caller.Some?
      requires Serving(op, Op(call, AfterGet(call, read, env.now)))
      requires read.id in repo.rows && repo.rows[read.id] == read
      modifies `world, `trace, repo, store
      ensures Serving(op, Op(call, Returned(r))) && world.ops == old(world.ops)[op := world.ops[op]]
      ensures Follows(old(trace), trace, op, env)
      ensures DeleteAnswer(old(Contents()), Contents(), r, read, call.caller.value.id, expected, env)
    {
      hide Tracked;
      hide Restamps;
      hide RemovalAnswer;
      hide Write;
      hide Reply;
      var v, version := read, expected;
      if v.status == Deleted {
        return Row(v);
      }
      if expected < 1 {
        return Failed(Invalid);
      }
      if v.status != Deleting {
        v := v.(status := Deleting, updatedAt := env.now, updatedBy := call.caller.value.id);
        Restamped(v, read);
        r := CommitStamped(op, call, read, v, version, None, env.tx);
        CommittedRow(old(Contents()), env.tx, expected == read.version, Stamped(read, Deleting, read.scan, v.updatedBy, env.now));
        if r.Failed? {
          return;
        }
        v := v.(version := version + 1);
        version := v.version;
      } else {
        version := v.version;
      }
      ghost var marked := trace;
      r := RemoveMarked(op, call, t, v, version, env);
      FollowsThen(old(trace), marked, trace, op, env);
    }

    /** Delete, from the row marked as deleting. */
    method RemoveMarked(ghost op: nat, call: Call, ghost t: Target, base: Metadata, version: int, env: Env)
      returns (r: Response)
      requires call.req.Delete? && call.req.target == t && call.req.expected >= 1 && call.caller.Some?
      requires base.status == Deleting && version == base.version
      requires Serving(op, Op(call, ToRemove(base)))
      requires base.id in repo.rows && repo.rows[base.id] == base
      modifies `world, `trace, repo, store
      ensures Serving(op, Op(call, Returned(r))) && world.ops == old(world.ops)[op := world.ops[op]]
      ensures Follows(old(trace), trace, op, env)
      ensures RemovalAnswer(old(Contents()), Contents(), r, base, call.caller.value.id, env)
    {
      hide Tracked;
      hide Restamps;
      hide Write;
      hide Reply;
      var ok := RemoveObject(op, call, base, env.release, env.later);
      if !ok {
        return Failed(Unavailable);
      }
      var v := base.(status := Deleted, updatedAt := env.later, updatedBy := call.caller.value.id);
      Restamped(v, base);
      ghost var removed := trace;
      r := CommitLast(op, call, base, v, version, None, env.tx2, env);
      FollowsThen(old(trace), removed, trace, op, env);
    }

    method CompleteUpload(caller: Option<Principal>, t: Target, checksum: string, expected: int, env: Env) returns (r: Response)
      requires Valid() && IsUuid(env.id)
      modifies this, repo, store
      ensures Valid() && next == old(next) + 1
      ensures world.ops == old(world.ops)[old(next) := Op(Call(caller, cfg, Complete(t, checksum, expected)), Returned(r))]
      ensures Follows(old(trace), trace, old(next), env)
      ensures var g := Gate(caller, t, true, env.grant, env.dbOk, old(repo.rows));
              && (g.Err? ==> r == Failed(g.error) && Contents() == old(Contents()))
              && (g.Ok? ==> CompletionAnswer(old(Contents()), Contents(), r, g.value, caller.value.id, cfg.scanRequired,
                                             checksum, expected, env))
      // a conflict exactly if one of the three comparisons fails, a ready row if all hold
      ensures var g := Gate(caller, t, true, env.grant, env.dbOk, old(repo.rows));
              g.Ok? && g.value.status != Ready && expected >= 1 && env.statOk && g.value.objectKey in old(store.objects) ==>
                var (v, info) := (g.value, old(store.objects)[g.value.objectKey]);
                && (info.size != v.size || Lower(TrimSpace(checksum)) != v.checksum
                    || (info.checksum != "" && info.checksum != v.checksum)
                    <==> r == Failed(Conflict))
                && (!(r == Failed(Conflict)) && expected == v.version && Succeeds(env.tx) ==>
                      && t.id in repo.rows && repo.rows[t.id].status == Ready && repo.rows[t.id].version == v.version + 1
                      && repo.rows[t.id].scan == (if cfg.scanRequired then ScanPending else ScanSkipped)
                      && r == Row(repo.rows[t.id]))
    {
      hide Tracked;
      hide Follows;
      hide Admission;
      hide AfterCompleteGet;
      hide Gate;
      var call := Call(caller, cfg, Complete(t, checksum, expected));
      ghost var op, before := next, world;
      var loaded := Admit(call, t, env);
      ghost var admitted := trace;
      if loaded.Err? {
        r := Failed(loaded.error);
      } else {
        r := CompleteFound(op, call, loaded.value, checksum, expected, env);
      }
      FollowsThen(old(trace), admitted, trace, op, env);
      QuietAgain(before, op, call, r);
    }

    /** CompleteUpload, from the row it has read; also the end of CompleteMultipartUpload. */
    method CompleteFound(ghost op: nat, call: Call, read: Metadata, checksum: string, expected: int, env: Env)
      returns (r: Response)
      requires call.cfg == cfg && call.caller.Some? && Serving(op, Op(call, AfterCompleteGet(read, expected)))
      requires (call.req.Complete? || call.req.CompleteMultipart?) && call.req.checksum == checksum
               && call.req.expected == expected
      requires read.id in repo.rows && repo.rows[read.id] == read
      modifies `world, `trace, repo
      ensures Serving(op, Op(call, Returned(r))) && world.ops == old(world.ops)[op := world.ops[op]]
      ensures Follows(old(trace), trace, op, env)
      ensures CompletionAnswer(old(Contents()), Contents(), r, read, call.caller.value.id, cfg.scanRequired, checksum, expected, env)
    {
      hide Tracked;
      hide Restamps;
      hide Lower;
      hide TrimSpace;
      hide Write;
      hide Reply;
      var v := read;
      if v.status == Ready {
        return Row(v);
      }
      if expected < 1 {
        return Failed(Invalid);
      }
      var info := StatObject(op, call, v, env.statOk, env.later);
      if info.None? {
        return Failed(Unavailable);
      }
      if info.value.size != v.size || Lower(TrimSpace(checksum)) != v.checksum
         || (info.value.checksum != "" && info.value.checksum != v.checksum) {
        return Failed(Conflict);
      }
      v := v.(status := Ready);
      if cfg.scanRequired {
        v := v.(scan := ScanPending);
      } else {
        v := v.(scan := ScanSkipped);
      }
      v := v.(updatedAt := env.later, updatedBy := call.caller.value.id);
      Restamped(v, read);
      ghost var seen := trace;
      r := CommitLast(op, call, read, v, expected, info, env.tx, env);
      FollowsThen(old(trace), seen, trace, op, env);
    }

    method StatObject(ghost op: nat, ghost call: Call, v: Metadata, ok: bool, ghost now: int) returns (info: Option<ObjectInfo>)
      requires Serving(op, Op(call, ToStat(v)))
      modifies `world, `trace
      ensures Serving(op, Op(call, AfterStat(call, v, store.objects, ok, now)))
      ensures info == if ok && v.objectKey in store.objects then Some(store.objects[v.objectKey]) else None
      ensures world.ops == old(world.ops)[op := world.ops[op]] && trace == old(trace) + [Stat(op, ok, now)]
    {
      hide AfterStat;
      hide Tracked;
      assert Enabled(world, Label.Stat(op, ok, now)) && Tracked();
      Advance(Label.Stat(op, ok, now));
      info := store.Stat(v.objectKey, ok);
    }

    method CompleteMultipartUpload(caller: Option<Principal>, t: Target, checksum: string, parts: seq<Part>,
                                   expected: int, env: Env)
      returns (r: Response, wire: Option<seq<Part>>)
      requires Valid() && IsUuid(env.id)
      modifies this, repo, store
      ensures Valid() && next == old(next) + 1
      ensures world.ops == old(world.ops)[old(next) :=
        Op(Call(caller, cfg, CompleteMultipart(t, checksum, parts, expected)), Returned(r))]
      ensures Follows(old(trace), trace, old(next), env)
      ensures var g := Gate(caller, t, true, env.grant, env.dbOk, old(repo.rows));
              && (g.Err? ==> r == Failed(g.error) && Contents() == old(Contents()) && wire == None)
              && (g.Ok? ==> AssemblyAnswer(old(Contents()), Contents(), r, wire, g.value, caller.value, cfg.scanRequired,
                                           t, checksum, parts, expected, env))
      // what goes to storage: the accepted parts in order, tags cleaned twice
      ensures wire.Some? ==> t.id in old(repo.rows) && Acceptable(parts, old(repo.rows)[t.id].partCount)
      ensures wire.Some? ==> wire.value == CleanAll(CompletionList(parts))
    {
      hide Tracked;
      hide Follows;
      hide Admission;
      hide AfterGet;
      hide Gate;
      hide AssemblyAnswer;
      var call := Call(caller, cfg, CompleteMultipart(t, checksum, parts, expected));
      ghost var op, before := next, world;
      wire := None;
      var loaded := Admit(call, t, env);
      ghost var admitted := trace;
      if loaded.Err? {
        r := Failed(loaded.error);
      } else {
        r, wire := AssembleFound(op, call, loaded.value, t, checksum, parts, expected, env);
      }
      FollowsThen(old(trace), admitted, trace, op, env);
      QuietAgain(before, op, call, r);
    }

    /** CompleteMultipartUpload, from the row it has read. */
    method AssembleFound(ghost op: nat, call: Call, v: Metadata, t: Target, checksum: string, parts: seq<Part>,
                         expected: int, env: Env)
      returns (r: Response, wire: Option<seq<Part>>)
      requires call.cfg == cfg && call.req == CompleteMultipart(t, checksum, parts, expected) && IsUuid(env.id)
      requires call.caller.Some? && Serving(op, Op(call, AfterGet(call, v, env.now)))
      modifies `world, `trace, repo, store
      ensures Serving(op, Op(call, Returned(r))) && world.ops == old(world.ops)[op := world.ops[op]]
      ensures Follows(old(trace), trace, op, env)
      ensures wire.Some? ==> Acceptable(parts, v.partCount) && wire.value == CleanAll(CompletionList(parts))
      ensures AssemblyAnswer(old(Contents()), Contents(), r, wire, v, call.caller.value, cfg.scanRequired, t, checksum, parts,
                             expected, env)
    {
      hide Tracked;
      hide Acceptable;
      hide CompletionList;
      hide GoodParts;
      hide FinishAnswer;
      GoodPartsAreAcceptable(parts, v.partCount);
      wire := None;
      if v.mode != Multipart || v.status != PendingUpload || Wrap32(|parts|) != v.partCount || expected != v.version {
        return Failed(Conflict), None;
      }
      var list := ValidateParts(parts, v.partCount);
      if list.Err? {
        return Failed(list.error), None;
      }
      var sent;
      r, sent := FinishAndComplete(op, call, v, list.value, t, checksum, expected, env);
      wire := Some(sent);
    }

    /** Completes the session over the list, then runs CompleteUpload. */
    method FinishAndComplete(ghost op: nat, call: Call, v: Metadata, list: seq<Part>, t: Target, checksum: string,
                             expected: int, env: Env)
      returns (r: Response, wire: seq<Part>)
      requires call.cfg == cfg && call.req.CompleteMultipart? && IsUuid(env.id)
      requires call.req.target == t && call.req.checksum == checksum && call.req.expected == expected
      requires call.caller.Some? && Serving(op, Op(call, ToFinish(v)))
      modifies `world, `trace, repo, store
      ensures Serving(op, Op(call, Returned(r))) && world.ops == old(world.ops)[op := world.ops[op]]
      ensures Follows(old(trace), trace, op, env) && wire == CleanAll(list)
      ensures FinishAnswer(old(Contents()), Contents(), r, v, call.caller.value, cfg.scanRequired, t, checksum, expected, env)
    {
      hide Tracked;
      hide Gate;
      hide CompletionAnswer;
      hide Assemble;
      hide Faithful;
      FinishesFaithfully(op, env);
      var ok;
      ok, wire := FinishSession(op, call, v, list, env);
      ghost var assembled := trace;
      OneStepFollows(old(trace), Finish(op, env.finish, env.size, env.keepsChecksum), op, env);
      if ok {
        r := RereadAndComplete(op, call, t, checksum, expected, env);
      } else {
        r := Failed(Unavailable);
      }
      FollowsThen(old(trace), assembled, trace, op, env);
    }

    method RereadAndComplete(ghost op: nat, call: Call, t: Target, checksum: string, expected: int, env: Env)
      returns (r: Response)
      requires call.cfg == cfg && call.req.CompleteMultipart? && IsUuid(env.id) && call.caller.Some?
      requires call.req.target == t && call.req.checksum == checksum && call.req.expected == expected
      requires Serving(op, Op(call, Reread))
      modifies `world, `trace, repo
      ensures Serving(op, Op(call, Returned(r))) && world.ops == old(world.ops)[op := world.ops[op]]
      ensures Follows(old(trace), trace, op, env)
      ensures var again := Gate(call.caller, t, true, env.grantAgain, env.dbOkAgain, old(repo.rows));
              && (again.Err? ==> r == Failed(again.error) && Contents() == old(Contents()))
              && (again.Ok? ==> CompletionAnswer(old(Contents()), Contents(), r, again.value, call.caller.value.id,
                                                 cfg.scanRequired, checksum, expected, env))
    {
      hide Tracked;
      hide AfterCompleteGet;
      hide Admission;
      hide Gate;
      hide CompletionAnswer;
      RowsKnowTheirId();
      var again := LoadRow(op, call, Reread, t, env.grantAgain, env.dbOkAgain, env);
      ghost var reread := trace;
      if again.Err? {
        r := Failed(again.error);
      } else {
        r := CompleteFound(op, call, again.value, checksum, expected, env);
      }
      FollowsThen(old(trace), reread, trace, op, env);
    }

    method FinishSession(ghost op: nat, ghost call: Call, v: Metadata, list: seq<Part>, env: Env)
      returns (ok: bool, wire: seq<Part>)
      requires Serving(op, Op(call, ToFinish(v)))
      modifies `world, `trace, store
      ensures Serving(op, Op(call, if ok then Reread else Returned(Failed(Unavailable))))
      ensures world.ops == old(world.ops)[op := world.ops[op]]
      ensures trace == old(trace) + [Finish(op, env.finish, env.size, env.keepsChecksum)] && wire == CleanAll(list)
      ensures Contents() == Assemble(old(Contents()), v, env)
      ensures ok <==> env.finish == Done && v.uploadId in old(store.sessions) && old(store.sessions)[v.uploadId].state == Open
    {
      hide Tracked;
      ghost var l := Finish(op, env.finish, env.size, env.keepsChecksum);
      assert Enabled(world, l) && Tracked();
      ok, wire := store.CompleteMultipart(v.objectKey, v.uploadId, list, env.finish, env.size, env.keepsChecksum);
      Advance(l);
    }

    method AbortMultipartUpload(caller: Option<Principal>, t: Target, expected: int, env: Env) returns (r: Response)
      requires Valid() && IsUuid(env.id)
      modifies this, repo, store
      ensures Valid() && next == old(next) + 1
      ensures world.ops == old(world.ops)[old(next) := Op(Call(caller, cfg, Request.Abort(t, expected)), Returned(r))]
      ensures Follows(old(trace), trace, old(next), env)
      ensures var g := Gate(caller, t, true, env.grant, env.dbOk, old(repo.rows));
              && (g.Err? ==> r == Failed(g.error) && Contents() == old(Contents()))
              && (g.Ok? ==> AbortAnswer(old(Contents()), Contents(), r, g.value, caller.value.id, expected, env))
    {
      hide Tracked;
      hide Follows;
      hide Admission;
      hide AfterGet;
      hide Gate;
      hide AbortAnswer;
      var call := Call(caller, cfg, Request.Abort(t, expected));
      ghost var op, before := next, world;
      var loaded := Admit(call, t, env);
      ghost var admitted := trace;
      if loaded.Err? {
        r := Failed(loaded.error);
      } else {
        r := AbortFound(op, call, loaded.value, t, expected, env);
      }
      FollowsThen(old(trace), admitted, trace, op, env);
      QuietAgain(before, op, call, r);
    }

    method AbortFound(ghost op: nat, call: Call, read: Metadata, ghost t: Target, expected: int, env: Env)
      returns (r: Response)
      requires call.req == Request.Abort(t, expected) && call.caller.Some?
      requires Serving(op, Op(call, AfterGet(call, read, env.now)))
      requires read.id in repo.rows && repo.rows[read.id] == read
      modifies `world, `trace, repo, store
      ensures Serving(op, Op(call, Returned(r))) && world.ops == old(world.ops)[op := world.ops[op]]
      ensures Follows(old(trace), trace, op, env)
      ensures AbortAnswer(old(Contents()), Contents(), r, read, call.caller.value.id, expected, env)
    {
      hide Tracked;
      hide Restamps;
      hide Write;
      hide Reply;
      var v := read;
      if v.status == Deleted {
        return Row(v);
      }
      if v.mode != Multipart || v.status != PendingUpload || expected != v.version {
        return Failed(Conflict);
      }
      var ok := AbortUpload(op, call, v, env.release, env.later);
      if !ok {
        return Failed(Unavailable);
      }
      v := v.(status := Deleted, updatedAt := env.later, updatedBy := call.caller.value.id);
      Restamped(v, read);
      ghost var released := trace;
      r := CommitLast(op, call, read, v, expected, None, env.tx, env);
      FollowsThen(old(trace), released, trace, op, env);
    }

    method ReportScanResult(caller: Option<Principal>, t: Target, result: ScanStatus, expected: int, env: Env) returns (r: Response)
      requires Valid() && IsUuid(env.id)
      modifies this, repo, store
      ensures Valid() && next == old(next) + 1
      ensures world.ops == old(world.ops)[old(next) := Op(Call(caller, cfg, Report(t, result, expected)), Returned(r))]
      ensures Follows(old(trace), trace, old(next), env)
      ensures var g := Gate(caller, t, result == ScanClean || result == ScanInfected, env.grant, env.dbOk, old(repo.rows));
              && (g.Err? ==> r == Failed(g.error) && Contents() == old(Contents()))
              && (g.Ok? ==> ReportAnswer(old(Contents()), Contents(), r, g.value, caller.value.id, result, expected, env))
    {
      hide Tracked;
      hide Follows;
      hide AfterGet;
      hide Gate;
      hide ReportAnswer;
      GateNeedsCaller(caller, t, result == ScanClean || result == ScanInfected, env.grant, env.dbOk, repo.rows);
      var call := Call(caller, cfg, Report(t, result, expected));
      ghost var op, before := next, world;
      var loaded := Admit(call, t, env);
      ghost var admitted := trace;
      if loaded.Err? {
        r := Failed(loaded.error);
      } else {
        r := ReportFound(op, call, loaded.value, t, result, expected, env);
      }
      FollowsThen(old(trace), admitted, trace, op, env);
      QuietAgain(before, op, call, r);
    }

    method ReportFound(ghost op: nat, call: Call, read: Metadata, ghost t: Target, result: ScanStatus, expected: int, env: Env)
      returns (r: Response)
      requires call.req == Report(t, result, expected) && call.caller.Some? && (result == ScanClean || result == ScanInfected)
      requires Serving(op, Op(call, AfterGet(call, read, env.now)))
      requires read.id in repo.rows && repo.rows[read.id] == read
      modifies `world, `trace, repo
      ensures Serving(op, Op(call, Returned(r))) && world.ops == old(world.ops)[op := world.ops[op]]
      ensures Follows(old(trace), trace, op, env)
      ensures ReportAnswer(old(Contents()), Contents(), r, read, call.caller.value.id, result, expected, env)
    {
      hide Tracked;
      hide Restamps;
      hide Write;
      hide Reply;
      var v := read;
      if v.status != Ready || v.scan != ScanPending {
        return Failed(Conflict);
      }
      v := v.(scan := result, updatedAt := env.now, updatedBy := call.caller.value.id);
      Restamped(v, read);
      r := CommitLast(op, call, read, v, expected, None, env.tx, env);
    }

    method AuthorizeDownload(caller: Option<Principal>, t: Target, env: Env) returns (r: Response)
      requires Valid() && IsUuid(env.id)
      modifies this, repo, store
      ensures Valid() && next == old(next) + 1
      ensures world.ops == old(world.ops)[old(next) := Op(Call(caller, cfg, Download(t)), Returned(r))]
      ensures Follows(old(trace), trace, old(next), env) && Contents() == old(Contents())
      ensures var g := Gate(caller, t, true, env.grant, env.dbOk, repo.rows);
              && (g.Err? ==> r == Failed(g.error))
              && (g.Ok? ==>
                    r == if g.value.status != Ready || (g.value.scan != ScanClean && g.value.scan != ScanSkipped) then Failed(Conflict)
                         else if env.signOk then Url(g.value) else Failed(Unavailable))
    {
      hide Tracked;
      hide Follows;
      hide Admission;
      hide Gate;
      var call := Call(caller, cfg, Download(t));
      ghost var op, before := next, world;
      var loaded := Admit(call, t, env);
      ghost var admitted := trace;
      if loaded.Err? {
        r := Failed(loaded.error);
      } else {
        var v := loaded.value;
        var available := v.status == Ready && (v.scan == ScanClean || v.scan == ScanSkipped);
        r := AuthorizeFound(op, call, loaded.value, available, env);
      }
      FollowsThen(old(trace), admitted, trace, op, env);
      QuietAgain(before, op, call, r);
    }

    method AuthorizeUploadPart(caller: Option<Principal>, t: Target, part: int, env: Env) returns (r: Response)
      requires Valid() && IsUuid(env.id)
      modifies this, repo, store
      ensures Valid() && next == old(next) + 1
      ensures world.ops == old(world.ops)[old(next) := Op(Call(caller, cfg, AuthorizePart(t, part)), Returned(r))]
      ensures Follows(old(trace), trace, old(next), env) && Contents() == old(Contents())
      ensures var g := Gate(caller, t, true, env.grant, env.dbOk, repo.rows);
              && (g.Err? ==> r == Failed(g.error))
              && (g.Ok? ==>
                    r == if g.value.status != PendingUpload || g.value.mode != Multipart || part < 1 || part > g.value.partCount
                            || g.value.expiresAt.None? || env.now >= g.value.expiresAt.value then Failed(Conflict)
                         else if env.signOk then Url(g.value) else Failed(Unavailable))
    {
      hide Tracked;
      hide Follows;
      hide Admission;
      hide Gate;
      var call := Call(caller, cfg, AuthorizePart(t, part));
      ghost var op, before := next, world;
      var loaded := Admit(call, t, env);
      ghost var admitted := trace;
      if loaded.Err? {
        r := Failed(loaded.error);
      } else {
        var v := loaded.value;
        var available := v.status == PendingUpload && v.mode == Multipart && 1 <= part <= v.partCount
                         && v.expiresAt.Some? && env.now < v.expiresAt.value;
        r := AuthorizeFound(op, call, loaded.value, available, env);
      }
      FollowsThen(old(trace), admitted, trace, op, env);
      QuietAgain(before, op, call, r);
    }

    method AuthorizeFound(ghost op: nat, ghost call: Call, v: Metadata, available: bool, env: Env) returns (r: Response)
      requires Serving(op, Op(call, if available then ToSign(v) else Returned(Failed(Conflict))))
      modifies `world, `trace
      ensures Serving(op, Op(call, Returned(r))) && world.ops == old(world.ops)[op := world.ops[op]]
      ensures Follows(old(trace), trace, op, env)
      ensures r == if available then Signed(v, env.signOk) else Failed(Conflict)
    {
      hide Tracked;
      if !available {
        return Failed(Conflict);
      }
      r := SignUrl(op, call, v, env.signOk);
    }

    /** The key lookup of an initiation. */
    method LookupKey(d: Metadata) returns (found: Option<Metadata>)
      requires Tracked() && InSync()
      ensures found == FindByKey(repo.rows, d.tenant, d.application, d.idempotencyKey)
      ensures found.Some? <==> KeyTaken(repo.rows, d.tenant, d.application, d.idempotencyKey)
      ensures forall id :: id in repo.rows && HasKey(repo.rows[id], d.tenant, d.application, d.idempotencyKey) ==>
                found == Some(repo.rows[id])
    {
      TrackedInv();
      hide Inv;
      UniqueForKey(world, d.tenant, d.application, d.idempotencyKey);
      found := repo.GetByKey(d.tenant, d.application, d.idempotencyKey);
    }

    /** Takes up an initiation or a cleanup, as far as its read. */
    ghost method TakeUp(call: Call, grant: Grant, dbOk: bool, env: Env)
      requires Valid() && IsUuid(env.id) && grant == env.grant && dbOk == env.dbOk
      modifies `world, `trace, `next
      ensures next == old(next) + 1 && Follows(old(trace), trace, old(next), env)
      ensures Serving(old(next), Op(call, AfterRead(repo.rows, Op(call, Start), grant, dbOk, env.id, env.now)))
      ensures world.ops == old(world.ops)[old(next) := world.ops[old(next)]]
    {
      hide Tracked;
      hide AfterRead;
      var op := next;
      Launch(call);
      AdvanceRead(op, Op(call, Start), grant, dbOk, env.id, env.now);
    }

    method InitiateUpload(caller: Option<Principal>, upload: Upload, env: Env) returns (r: Response)
      requires Valid() && IsUuid(env.id)
      modifies this, repo, store
      ensures Valid() && next == old(next) + 1
      ensures world.ops == old(world.ops)[old(next) := Op(Call(caller, cfg, InitiateSingle(upload)), Returned(r))]
      ensures Follows(old(trace), trace, old(next), env)
      ensures var refused := Refusal(caller, cfg, upload, env.grant);
              && (refused.Some? ==> r == Failed(refused.value) && Contents() == old(Contents()))
              && (refused.None? ==>
                    caller.Some? && SingleAnswer(old(Contents()), Contents(), r, upload,
                      NewFile(caller.value.id, cfg, upload, Single, 0, 0, "", env.id, env.now), env))
      // the file answered has the key that was sent; a new one also what was declared
      ensures r.Url? ==> HasRequestedKey(r.file, upload)
      ensures r.Url? && r.file.id !in old(repo.rows) ==>
        && r.file.size == upload.size && r.file.checksum == Lower(TrimSpace(upload.checksum))
        && r.file.id in repo.rows && repo.rows[r.file.id] == r.file
    {
      var call := Call(caller, cfg, InitiateSingle(upload));
      hide Tracked;
      hide ValidateUpload;
      hide FindByKey;
      hide Follows;
      hide HasRequestedKey;
      hide KeyTaken;
      hide Faithful;
      hide Refusal;
      hide NewRow;
      hide NewFile;
      hide SingleAnswer;
      hide Normalize;
      hide AfterRead;
      SingleRead(call, repo.rows, env);
      RefusalIs(call, upload, env.grant);
      RefusalNeedsCaller(call, upload, env.grant);
      ghost var op, before := next, world;
      TakeUp(call, env.grant, env.dbOk, env);
      ghost var admitted := trace;
      var checked := ValidateUpload(call, upload, env.grant);
      if checked.Err? {
        r := Failed(checked.error);
      } else {
        NewFileIs(call, upload, Single, 0, 0, env.id, env.now);
        var v := NewRow(call, checked.value, Single, 0, 0, env.id, env.now);
        NewFileHasKey(caller.value.id, cfg, upload, Single, 0, 0, "", env.id, env.now);
        r := FindOrInsert(op, call, upload, v, env);
      }
      FollowsThen(old(trace), admitted, trace, op, env);
      QuietAgain(before, op, call, r);
    }

    /** The file that has the key, or a new one. */
    method FindOrInsert(ghost op: nat, ghost call: Call, ghost upload: Upload, v: Metadata, env: Env) returns (r: Response)
      requires v.mode == Single && HasRequestedKey(v, upload)
      requires Serving(op, Op(call, if !env.dbOk then Returned(Failed(Internal))
                                    else match FindByKey(repo.rows, v.tenant, v.application, v.idempotencyKey)
                                      case Some(u) => ToSign(u)
                                      case None => ToInsert(v)))
      modifies `world, `trace, repo
      ensures Serving(op, Op(call, Returned(r))) && world.ops == old(world.ops)[op := world.ops[op]]
      ensures Follows(old(trace), trace, op, env)
      ensures SingleAnswer(old(Contents()), Contents(), r, upload, v, env)
      ensures r.Url? ==> HasRequestedKey(r.file, upload)
      ensures r.Url? && r.file.id !in old(repo.rows) ==>
        r.file == v && r.file.id in repo.rows && repo.rows[r.file.id] == r.file
    {
      hide Tracked;
      hide FindByKey;
      hide Write;
      hide Reply;
      hide Signed;
      hide HasRequestedKey;
      hide KeyTaken;
      hide HasKey;
      hide SingleAnswer;
      ghost var s := Contents();
      RowsKnowTheirId();
      KeyAsRequested(repo.rows, v, upload);
      if !env.dbOk {
        r := Failed(Internal);
        SingleWithoutDatabase(s, upload, v, env);
      } else {
        var existing := LookupKey(v);
        if existing.Some? {
          r := AuthorizeFound(op, call, existing.value, true, env);
          SingleFound(s, upload, existing.value, v, env);
        } else {
          r := InsertAndSign(op, call, v, env);
          SingleInserted(s, upload, v, env);
        }
      }
      SingleUrl(s, Contents(), r, upload, v, env);
    }

    method InsertAndSign(ghost op: nat, ghost call: Call, v: Metadata, env: Env) returns (r: Response)
      requires Serving(op, Op(call, ToInsert(v))) && v.mode == Single
      requires !KeyTaken(repo.rows, v.tenant, v.application, v.idempotencyKey)
      modifies `world, `trace, repo
      ensures Serving(op, Op(call, Returned(r))) && world.ops == old(world.ops)[op := world.ops[op]]
      ensures Follows(old(trace), trace, op, env)
      ensures Contents() == Write(old(Contents()), env.tx, v.id !in old(repo.rows), v)
      ensures r == if Reply(env.tx, v.id !in old(repo.rows), v).Row? then Signed(v, env.signOk) else Failed(Internal)
    {
      hide Tracked;
      hide KeyTaken;
      hide Write;
      hide Reply;
      hide Effect;
      var res := CommitInsert(op, call, v, env.tx);
      if res != TxOk {
        return Failed(Internal);
      }
      r := SignUrl(op, call, v, env.signOk);
    }

    method InitiateMultipartUpload(caller: Option<Principal>, upload: Upload, requested: Int64, env: Env) returns (r: Response)
      requires Valid() && IsUuid(env.id) && env.uploadId !in store.sessions
      modifies this, repo, store
      ensures Valid() && next == old(next) + 1
      ensures world.ops == old(world.ops)[old(next) :=
        Op(Call(caller, cfg, InitiateMultipart(upload, requested)), Returned(r))]
      ensures Follows(old(trace), trace, old(next), env)
      ensures var size := AskedPartSize(requested);
              var refused := Refusal(caller, cfg, upload, env.grant);
              && (!PartsFit(upload.size, size) ==> r == Failed(Invalid) && Contents() == old(Contents()))
              && (PartsFit(upload.size, size) && refused.Some? ==> r == Failed(refused.value) && Contents() == old(Contents()))
              && (PartsFit(upload.size, size) && refused.None? ==>
                    caller.Some? && MultipartAnswer(old(Contents()), Contents(), r, upload,
                      NewFile(caller.value.id, cfg, upload, Multipart, size, (upload.size + size - 1) / size,
                              env.uploadId, env.id, env.now), env))
    {
      var call := Call(caller, cfg, InitiateMultipart(upload, requested));
      hide Tracked;
      hide Follows;
      hide HasRequestedKey;
      hide KeyTaken;
      hide Faithful;
      hide ValidateUpload;
      hide FindByKey;
      hide ComputedCount;
      hide Refusal;
      hide NewRow;
      hide NewFile;
      hide MultipartAnswer;
      hide Normalize;
      hide PartsFit;
      hide Wrap32;
      hide AfterRead;
      MultipartRead(call, repo.rows, env);
      CountRange(upload.size, requested);
      RefusalIs(call, upload, env.grant);
      RefusalNeedsCaller(call, upload, env.grant);
      FitsAre(upload.size, requested);
      ghost var op, before := next, world;
      TakeUp(call, env.grant, env.dbOk, env);
      ghost var admitted := trace;
      var partSize := EffectivePartSize(requested);
      if partSize < MIN_PART_SIZE || partSize > MAX_PART_SIZE {
        r := Failed(Invalid);
      } else {
        var partCount := ComputedCount(upload.size, partSize);
        if upload.size <= 0 || partCount < 1 || partCount > MAX_PARTS {
          r := Failed(Invalid);
        } else {
          var checked := ValidateUpload(call, upload, env.grant);
          if checked.Err? {
            r := Failed(checked.error);
          } else {
            NewFileIs(call, upload, Multipart, partSize, Wrap32(partCount), env.id, env.now);
            NewFileHasKey(caller.value.id, cfg, upload, Multipart, partSize, Wrap32(partCount), "", env.id, env.now);
            var v := NewRow(call, checked.value, Multipart, partSize, Wrap32(partCount), env.id, env.now);
            SessionAdded(caller.value.id, cfg, upload, partSize, Wrap32(partCount), env.uploadId, env.id, env.now);
            r := FindOrOpen(op, call, upload, v, env);
          }
        }
      }
      FollowsThen(old(trace), admitted, trace, op, env);
      QuietAgain(before, op, call, r);
    }

    /** The pending upload that has the key, or a new one. */
    method FindOrOpen(ghost op: nat, ghost call: Call, ghost upload: Upload, v: Metadata, env: Env) returns (r: Response)
      requires v.mode == Multipart && HasRequestedKey(v, upload) && env.uploadId !in store.sessions
      requires Serving(op, Op(call, if !env.dbOk then Returned(Failed(Internal))
                                    else match FindByKey(repo.rows, v.tenant, v.application, v.idempotencyKey)
                                      case Some(u) =>
                                        Returned(if u.mode != Multipart || u.status != PendingUpload then Failed(Conflict) else Row(u))
                                      case None => ToOpen(v)))
      modifies `world, `trace, repo, store
      ensures Serving(op, Op(call, Returned(r))) && world.ops == old(world.ops)[op := world.ops[op]]
      ensures Follows(old(trace), trace, op, env)
      ensures MultipartAnswer(old(Contents()), Contents(), r, upload, v.(uploadId := env.uploadId), env)
    {
      hide Tracked;
      hide FindByKey;
      hide OpenedAnswer;
      hide HasRequestedKey;
      hide KeyTaken;
      hide HasKey;
      KeyAsRequested(repo.rows, v, upload);
      if !env.dbOk {
        return Failed(Internal);
      }
      var existing := LookupKey(v);
      if existing.Some? {
        r := if existing.value.mode != Multipart || existing.value.status != PendingUpload then Failed(Conflict)
             else Row(existing.value);
      } else {
        r := OpenAndInsert(op, call, v, env);
      }
    }

    /** Opens the session, inserts the row, and closes the session again if that failed. */
    method OpenAndInsert(ghost op: nat, ghost call: Call, draft: Metadata, env: Env) returns (r: Response)
      requires Serving(op, Op(call, ToOpen(draft))) && draft.mode == Multipart && env.uploadId !in store.sessions
      requires !KeyTaken(repo.rows, draft.tenant, draft.application, draft.idempotencyKey)
      modifies `world, `trace, repo, store
      ensures Serving(op, Op(call, Returned(r))) && world.ops == old(world.ops)[op := world.ops[op]]
      ensures Follows(old(trace), trace, op, env)
      ensures OpenedAnswer(old(Contents()), Contents(), r, draft.(uploadId := env.uploadId), env)
    {
      hide Tracked;
      hide KeyTaken;
      hide Write;
      hide Reply;
      hide Closing;
      var ok := OpenUpload(op, call, draft, env);
      if !ok {
        return Failed(Unavailable);
      }
      var v := draft.(uploadId := env.uploadId);
      ghost var waiting := trace;
      r := InsertOpened(op, call, v, env);
      FollowsThen(old(trace), waiting, trace, op, env);
    }

    method OpenUpload(ghost op: nat, ghost call: Call, draft: Metadata, env: Env) returns (ok: bool)
      requires Serving(op, Op(call, ToOpen(draft))) && env.uploadId !in store.sessions
      modifies `world, `trace, store
      ensures Serving(op, Op(call, if ok then ToInsert(draft.(uploadId := env.uploadId)) else Returned(Failed(Unavailable))))
      ensures world.ops == old(world.ops)[op := world.ops[op]] && Follows(old(trace), trace, op, env)
      ensures ok <==> env.open == Done
      ensures Contents() == if env.open == NotDone then old(Contents()) else Waiting(old(Contents()), draft.(uploadId := env.uploadId))
    {
      hide Tracked;
      ghost var l := OpenSession(op, env.open, env.uploadId);
      assert Enabled(world, l) && Tracked();
      ok := store.InitiateMultipart(draft.objectKey, draft.checksum, env.open, env.uploadId);
      Advance(l);
    }

    method InsertOpened(ghost op: nat, ghost call: Call, v: Metadata, env: Env) returns (r: Response)
      requires Serving(op, Op(call, ToInsert(v))) && v.mode == Multipart
      requires !KeyTaken(repo.rows, v.tenant, v.application, v.idempotencyKey)
      modifies `world, `trace, repo, store
      ensures Serving(op, Op(call, Returned(r))) && world.ops == old(world.ops)[op := world.ops[op]]
      ensures Follows(old(trace), trace, op, env)
      ensures var free := v.id !in old(repo.rows);
              && r == (if Reply(env.tx, free, v).Row? then Row(v) else Failed(Internal))
              && Contents() == if r.Row? then Write(old(Contents()), env.tx, free, v)
                               else Closing(Write(old(Contents()), env.tx, free, v), v.uploadId, env.undo, Aborted)
    {
      hide Tracked;
      hide KeyTaken;
      hide Write;
      hide Reply;
      hide Closing;
      hide Effect;
      var res := CommitInsert(op, call, v, env.tx);
      if res != TxOk {
        UndoOpen(op, call, v, env.undo);
        return Failed(Internal);
      }
      r := Row(v);
    }

    method UndoOpen(ghost op: nat, ghost call: Call, v: Metadata, outcome: Outcome)
      requires Serving(op, Op(call, ToUndo(v)))
      modifies `world, `trace, store
      ensures Serving(op, Op(call, Returned(Failed(Internal)))) && world.ops == old(world.ops)[op := world.ops[op]]
      ensures trace == old(trace) + [Undo(op, outcome)]
      ensures Contents() == Closing(old(Contents()), v.uploadId, outcome, Aborted)
    {
      hide Tracked;
      ghost var l := Undo(op, outcome);
      assert Enabled(world, l) && Tracked();
      var _ := store.AbortMultipart(v.uploadId, outcome);
      Advance(l);
    }

    /** Cleans one listed upload: storage first, then the row. */
    method CleanOne(value: Metadata, before: int, env: Env) returns (ok: bool)
      requires Valid() && IsUuid(env.id)
      requires value.id in repo.rows && repo.rows[value.id] == value && DueForCleanup(value, before)
      modifies this, repo, store
      ensures Valid() && (ok <==> Cleans(env))
      ensures repo.rows == if Expires(env) then old(repo.rows)[value.id := ExpiredRow(value, env.later)] else old(repo.rows)
      ensures |repo.outbox| == |old(repo.outbox)| + (if Expires(env) then 1 else 0)
      ensures old(repo.outbox) <= repo.outbox
      ensures next == old(next) + 1 && Follows(old(trace), trace, old(next), env.(dbOk := true))
      ensures CleanAnswer(old(Contents()), Contents(), ok, value, env)
    {
      hide Tracked;
      hide Faithful;
      hide Write;
      hide Reply;
      hide Closing;
      var call := Call(None, cfg, Cleanup(value.id, before));
      ghost var op, earlier := next, world;
      TakeListed(call, value, env);
      ok := ReleaseListed(op, call, value, env);
      if !ok {
        QuietAgain(earlier, op, call, Failed(Unavailable));
        return false;
      }
      ok := ExpireRow(op, call, value, env);
      QuietAgain(earlier, op, call, world.ops[op].pc.response);
    }

    /** Takes up the cleanup of a listed upload. */
    ghost method TakeListed(call: Call, value: Metadata, env: Env)
      requires Valid() && IsUuid(env.id) && call.req.Cleanup? && call.req.id == value.id
      requires value.id in repo.rows && repo.rows[value.id] == value && DueForCleanup(value, call.req.before)
      modifies `world, `trace, `next
      ensures next == old(next) + 1 && Follows(old(trace), trace, old(next), env.(dbOk := true))
      ensures Serving(old(next), Op(call, if value.mode == Multipart then ToAbort(value) else ToRemove(value)))
      ensures world.ops == old(world.ops)[old(next) := world.ops[old(next)]]
    {
      hide Tracked;
      hide DueForCleanup;
      hide Follows;
      TakeUp(call, env.grant, true, env.(dbOk := true));
    }

    /** Gives the storage of a listed upload back: its session, or its object. */
    method ReleaseListed(ghost op: nat, ghost call: Call, value: Metadata, env: Env) returns (ok: bool)
      requires Serving(op, Op(call, if value.mode == Multipart then ToAbort(value) else ToRemove(value)))
      modifies `world, `trace, store
      ensures Serving(op, Op(call, AfterRelease(call, value, env.release, env.later))) && (ok <==> env.release == Done)
      ensures world.ops == old(world.ops)[op := world.ops[op]] && world.rows == old(world.rows)
      ensures Follows(old(trace), trace, op, env.(dbOk := true))
      ensures Contents() == if value.mode == Multipart then Closing(old(Contents()), value.uploadId, env.release, Aborted)
                            else Without(old(Contents()), value.objectKey, env.release)
    {
      hide Tracked;
      hide AfterRelease;
      if value.mode == Multipart {
        ok := AbortUpload(op, call, value, env.release, env.later);
      } else {
        ok := RemoveObject(op, call, value, env.release, env.later);
      }
    }

    method ExpireRow(ghost op: nat, ghost call: Call, value: Metadata, env: Env) returns (ok: bool)
      requires call.req.Cleanup? && DueForCleanup(value, call.req.before)
      requires Serving(op, Op(call, AfterRelease(call, value, Done, env.later)))
      requires value.id in repo.rows && repo.rows[value.id] == value
      modifies `world, `trace, repo
      ensures Tracked() && InSync() && op in world.ops && world.ops == old(world.ops)[op := world.ops[op]]
      ensures world.ops[op].call == call && world.ops[op].pc.Returned?
      ensures ok <==> Effect(env.tx, true) == Committed
      ensures repo.rows == if Effect(env.tx, true) != RolledBack
                           then old(repo.rows)[value.id := ExpiredRow(value, env.later)] else old(repo.rows)
      ensures old(repo.outbox) <= repo.outbox && Follows(old(trace), trace, op, env.(dbOk := true))
      ensures |repo.outbox| == |old(repo.outbox)| + (if Effect(env.tx, true) != RolledBack then 1 else 0)
      ensures var done := Stamped(value, Expired, value.scan, "system:file-lifecycle", env.later);
              (ok <==> Reply(env.tx, true, done).Row?) && Contents() == Write(old(Contents()), env.tx, true, done)
    {
      hide Tracked;
      hide Restamps;
      hide Reply;
      var expected := value.version;
      var v := value.(status := Expired, updatedAt := env.later, updatedBy := CLEANER);
      Restamped(v, value);
      CleanEffect(value, env);
      var res := CommitStamped(op, call, value, v, expected, None, env.tx);
      ok := res.Row?;
    }

    /** CleanupExpiredUploads: a failed listing is reported; otherwise every listed upload is
        either cleaned or collected as an error. */
    method CleanupExpiredUploads(now: int, listOk: bool, envs: seq<Env>)
      returns (cleaned: nat, errors: seq<string>, failed: Option<Error>)
      requires Valid() && |envs| >= cfg.cleanupBatch && forall i :: 0 <= i < |envs| ==> IsUuid(envs[i].id)
      modifies this, repo, store
      ensures Valid() && old(WellKeyed(repo.rows)) && old(trace) <= trace
      ensures failed == if listOk then None else Some(Internal)
      ensures !listOk ==> cleaned == 0 && errors == [] && repo.rows == old(repo.rows) && repo.outbox == old(repo.outbox)
      ensures listOk ==>
        var files := Batch(old(repo.rows), now, cfg.cleanupBatch);
        && |files| <= |envs|
        && cleaned + |errors| == |files|
        && cleaned == CountCleans(envs, |files|)
        && CleanedUpTo(old(repo.rows), repo.rows, files, envs, |files|)
        && |repo.outbox| == |old(repo.outbox)| + CountExpires(envs, |files|)
      // only pending uploads whose time is over are touched
      ensures repo.rows.Keys == old(repo.rows.Keys)
      ensures forall id :: id in repo.rows && repo.rows[id] != old(repo.rows)[id] ==>
        && old(repo.rows)[id].status == PendingUpload
        && old(repo.rows)[id].expiresAt.Some? && old(repo.rows)[id].expiresAt.value <= now
        && repo.rows[id].status == Expired && repo.rows[id].version == old(repo.rows)[id].version + 1
    {
      cleaned, errors, failed := 0, [], None;
      TrackedInv();
      if !listOk {
        failed := Some(Internal);
        return;
      }
      var files := repo.ListExpiredUploads(now, cfg.cleanupBatch);
      BatchFacts(repo.rows, now, cfg.cleanupBatch);
      DueIs(files, now);
      hide Batch;
      hide DueForCleanup;
      hide Valid;
      hide CleanedUpTo;
      cleaned, errors := CleanAllListed(now, files, envs);
      OnlyListedChange(old(repo.rows), repo.rows, files, envs, now);
    }

    method CleanAllListed(before: int, files: seq<Metadata>, envs: seq<Env>) returns (cleaned: nat, errors: seq<string>)
      requires Valid() && |files| <= |envs| && DistinctFiles(files)
      requires forall i :: 0 <= i < |envs| ==> IsUuid(envs[i].id)
      requires forall i :: 0 <= i < |files| ==> files[i].id in repo.rows && repo.rows[files[i].id] == files[i]
      requires forall i :: 0 <= i < |files| ==> DueForCleanup(files[i], before)
      modifies this, repo, store
      ensures Valid() && old(trace) <= trace
      ensures cleaned + |errors| == |files| && cleaned == CountCleans(envs, |files|)
      ensures CleanedUpTo(old(repo.rows), repo.rows, files, envs, |files|)
      ensures |repo.outbox| == |old(repo.outbox)| + CountExpires(envs, |files|)
    {
      hide Valid;
      hide CleanedUpTo;
      hide Cleans;
      hide Expires;
      hide ExpiredRow;
      hide DueForCleanup;
      hide DistinctFiles;
      cleaned, errors := 0, [];
      NothingCleanedYet(repo.rows, files, envs);
      for i := 0 to |files|
        invariant Valid() && old(trace) <= trace
        invariant cleaned + |errors| == i && cleaned == CountCleans(envs, i)
        invariant |repo.outbox| == |old(repo.outbox)| + CountExpires(envs, i)
        invariant CleanedUpTo(old(repo.rows), repo.rows, files, envs, i)
      {
        NextToClean(old(repo.rows), repo.rows, files, envs, i);
        ghost var rows := repo.rows;
        var ok := CleanOne(files[i], before, envs[i]);
        OneMoreCleaned(old(repo.rows), rows, repo.rows, files, envs, i);
        if ok {
          cleaned := cleaned + 1;
        } else {
          errors := errors + [files[i].id];
        }
      }
    }

    /** List: the page of the caller's own files, or the first error met. */
    method List(caller: Option<Principal>, tenant: string, application: string, match_: Metadata -> bool,
                page: Int64, pageSize: Int64, grant: Grant, dbOk: bool)
      returns (r: Result<Page>)
      requires Valid()
      ensures WellKeyed(repo.rows)
      ensures r.Ok? ==> caller.Some? && grant == Granted && (caller.value.isUser ==> caller.value.tenant == TrimSpace(tenant))
      ensures r.Ok? ==> dbOk && r == ListPage(repo.rows, TrimSpace(tenant), TrimSpace(application), match_, page, pageSize)
      ensures r.Ok? ==> r.value.page == (if page <= 0 then 1 else page) && r.value.pageSize == if pageSize <= 0 then 20 else pageSize
      ensures r.Err? ==>
        r.error == if caller.None? then Unauthorized
                   else if caller.value.isUser && (TrimSpace(caller.value.tenant) == "" || caller.value.tenant != TrimSpace(tenant))
                   then Forbidden
                   else if TrimSpace(tenant) == "" || TrimSpace(application) == "" then Invalid
                   else if grant == NotGranted then Forbidden
                   else if grant == GrantUnavailable then Unavailable
                   else if pageSize > 100 then Invalid
                   else Internal
      ensures caller.Some? && (caller.value.isUser ==> TrimSpace(caller.value.tenant) != "" && caller.value.tenant == TrimSpace(tenant))
              && TrimSpace(tenant) != "" && TrimSpace(application) != "" && grant == Granted && dbOk ==>
        r == ListPage(repo.rows, TrimSpace(tenant), TrimSpace(application), match_, page, pageSize)
    {
      TrackedInv();
      hide Matching;
      if caller.None? {
        return Err(Unauthorized);
      }
      var ownTenant, ownApplication := TrimSpace(tenant), TrimSpace(application);
      TrimmedTwice(tenant);
      TrimmedTwice(application);
      hide TrimSpace;
      if !TenantAllowed(caller.value, ownTenant) {
        return Err(Forbidden);
      }
      var denied := VerifyApplication(ownTenant, ownApplication, grant);
      if denied.Some? {
        return Err(denied.value);
      }
      var p, size := page, pageSize;
      if p <= 0 {
        p := 1;
      }
      if size <= 0 {
        size := 20;
      }
      if size > 100 {
        return Err(Invalid);
      }
      var offset := Offset(p, size);
      if !dbOk || offset < 0 {
        return Err(Internal);
      }
      var files, total := repo.List(ownTenant, ownApplication, match_, size, offset);
      r := Ok(Page(files, total, p, size));
    }
  }

  lemma UniqueForKey(w: World, tenant: string, application: string, key: string)
    requires Inv(w)
    ensures forall i, j :: (i in w.rows && j in w.rows && HasKey(w.rows[i], tenant, application, key)
                            && HasKey(w.rows[j], tenant, application, key)) ==> i == j
  {
    hide TablesOk;
    hide OutboxOk;
    hide OpsOk;
    forall i, j | i in w.rows && j in w.rows && HasKey(w.rows[i], tenant, application, key)
                  && HasKey(w.rows[j], tenant, application, key)
      ensures i == j
    {
      assert SameKey(w.rows[i], w.rows[j]);
    }
  }
}
