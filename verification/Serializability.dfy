/** Runs in which no write goes through on a stale snapshot. They are the runs of callers who
    never expect a version above the one read, and all serial runs. */
module Serializability {
  import opened Basics
  import opened Completion
  import opened Model
  import opened Protocol
  import opened Invariants
  import opened History

  /** Every update that takes effect was computed from the row it replaces. */
  ghost predicate FreshWrite(w: World, l: Label) {
    l.Update? && Applies(w, l.op, l.tx) ==> w.ops[l.op].pc.base == w.rows[w.ops[l.op].pc.v.id]
  }

  ghost predicate FreshRun(w: World, run: seq<Label>)
    decreases |run|
  {
    run == [] || (Enabled(w, run[0]) && FreshWrite(w, run[0]) && FreshRun(Apply(w, run[0]), run[1..]))
  }

  lemma {:induction false} FreshRunIsRun(w: World, run: seq<Label>)
    requires FreshRun(w, run)
    ensures IsRun(w, run)
    decreases |run|
  {
    hide Enabled;
    hide Apply;
    hide FreshWrite;
    if run != [] {
      FreshRunIsRun(Apply(w, run[0]), run[1..]);
    }
  }

  // ---- Honest callers ----

  /** The version a caller presents, for the three operations that trust it. */
  function Presented(req: Request): Option<int> {
    match req
    case Complete(_, _, expected) => Some(expected)
    case Report(_, _, expected) => Some(expected)
    case Delete(_, expected) => Some(expected)
    case _ => None
  }

  /** When the call reads its row, the version it presents does not exceed the row's. */
  ghost predicate HonestStep(w: World, l: Label) {
    l.Read? && l.op in w.ops && Presented(w.ops[l.op].call.req).Some?
    && Find(w.rows, w.ops[l.op].call.req.target).Some? ==>
      Presented(w.ops[l.op].call.req).value <= Find(w.rows, w.ops[l.op].call.req.target).value.version
  }

  ghost predicate HonestRun(w: World, run: seq<Label>)
    decreases |run|
  {
    run == [] || (Enabled(w, run[0]) && HonestStep(w, run[0]) && HonestRun(Apply(w, run[0]), run[1..]))
  }

  /** No call in flight waits to write at a version above the one it read. */
  ghost predicate HonestOp(o: Op) {
    match o.pc
    case ToStat(v) => CasVersion(o.call, v) <= v.version
    case ToUpdate(base, v, expected, _) => expected <= base.version
    case _ => true
  }

  ghost predicate HonestOps(w: World) {
    forall op :: op in w.ops ==> HonestOp(w.ops[op])
  }

  lemma HonestAfterGet(call: Call, v: Metadata, now: int)
    requires Completing(call) || call.req.Abort? || call.req.Report? || call.req.Delete? || call.req.Download?
             || call.req.AuthorizePart?
    requires Presented(call.req).Some? ==> Presented(call.req).value <= v.version
    ensures HonestOp(Op(call, AfterGet(call, v, now)))
  {
    hide Planned;
  }

  lemma HonestReread(w: World, call: Call)
    requires TablesOk(w) && call.req.CompleteMultipart? && Assembling(w, call)
    requires Find(w.rows, call.req.target).Some?
    ensures call.req.expected <= Find(w.rows, call.req.target).value.version
  {
    hide HistoryOk;
    RowIsSnapshot(w, call.req.target.id);
  }

  lemma HonestReadStep(w: World, l: Label)
    requires Inv(w) && l.Read? && Enabled(w, l) && HonestStep(w, l)
    ensures HonestOp(Apply(w, l).ops[l.op])
  {
    hide Draft;
    hide Admission;
    hide TablesOk;
    hide OutboxOk;
    hide KeysUnique;
    hide AfterGet;
    var o := w.ops[l.op];
    assert OpOk(w, o);
    var req := o.call.req;
    if !req.InitiateSingle? && !req.InitiateMultipart? && !req.Cleanup? && Find(w.rows, req.target).Some? {
      if o.pc == Reread {
        HonestReread(w, o.call);
      } else {
        HonestAfterGet(o.call, Find(w.rows, req.target).value, l.now);
      }
    }
  }

  lemma HonestOtherStep(w: World, l: Label)
    requires Inv(w) && !l.Read? && !l.Put? && !l.Crash? && Enabled(w, l)
    requires l.op in w.ops ==> HonestOp(w.ops[l.op])
    ensures l.op in Apply(w, l).ops ==> HonestOp(Apply(w, l).ops[l.op])
  {
    hide Apply;
    hide Inv;
    match l
    case Begin(op, call) => BeginAtStart(w, op, call);
    case Insert(op, tx) => InsertMoves(w, op, tx);
    case Update(op, tx) => UpdateMoves(w, op, tx);
    case _ => HonestStoreStep(w, l);
  }

  lemma HonestStoreStep(w: World, l: Label)
    requires Inv(w) && IsStoreStep(l) && Enabled(w, l) && HonestOp(w.ops[l.op])
    ensures l.op in Apply(w, l).ops && HonestOp(Apply(w, l).ops[l.op])
  {
    hide Apply;
    hide Inv;
    hide Planned;
    StoreStepIs(w, l);
    InvOps(w);
    if l.AbortSession? || l.Remove? {
      ReleasingPlan(w, l.op);
      HonestRelease(w.ops[l.op].call, w.ops[l.op].pc.v, l.now);
    }
  }

  lemma ReleasingPlan(w: World, op: nat)
    requires OpsOk(w) && op in w.ops && (w.ops[op].pc.ToAbort? || w.ops[op].pc.ToRemove?)
    ensures var Op(call, pc) := w.ops[op];
            Plannable(call, pc.v) && (call.req.Abort? || call.req.Cleanup? || (call.req.Delete? && pc.v.status == Deleting))
  {
    hide Plannable;
    hide Snapshot;
    assert OpOk(w, w.ops[op]);
  }

  /** An abort has compared versions, cleanup and the end of a deletion use the one they read. */
  lemma HonestRelease(call: Call, v: Metadata, now: int)
    requires Plannable(call, v) && (call.req.Abort? || call.req.Cleanup? || (call.req.Delete? && v.status == Deleting))
    ensures CasVersion(call, v) == v.version
  {
  }

  lemma HonestKept(w: World, l: Label)
    requires Inv(w) && Enabled(w, l) && HonestStep(w, l) && HonestOps(w)
    ensures HonestOps(Apply(w, l))
  {
    hide Inv;
    hide Apply;
    hide HonestOp;
    OthersUntouched(w, l);
    if l.Read? {
      HonestReadStep(w, l);
    } else if l.Crash? {
      CrashForgets(w, l.op);
    } else if !l.Put? {
      HonestOtherStep(w, l);
    }
  }

  lemma StaleVersionsLose(w: World, call: Call, base: Metadata, v: Metadata, expected: int, info: Option<ObjectInfo>)
    requires TablesOk(w) && Staged(w, call, base, v, expected, info) && CanUpdate(w, v, expected)
    requires expected <= base.version
    ensures base == w.rows[v.id]
  {
    hide HistoryOk;
    hide DbUpdate;
    hide Facts;
    hide Planned;
    hide StatusOk;
    UpdatedRow(w, call, base, v, expected, info);
    RowIsSnapshot(w, v.id);
  }

  /** A version test at or below the version read can only succeed on the row that was read. */
  lemma HonestIsFresh(w: World, l: Label)
    requires Inv(w) && Enabled(w, l) && HonestOps(w)
    ensures FreshWrite(w, l)
  {
    if l.Update? && Applies(w, l.op, l.tx) {
      var Op(call, ToUpdate(base, v, expected, info)) := w.ops[l.op];
      UpdatingIsStaged(w, l.op);
      assert HonestOp(w.ops[l.op]);
      StaleVersionsLose(w, call, base, v, expected, info);
    }
  }

  /** Whatever the interleaving: a write that takes effect replaces the very row it was computed
      from if and only if the version presented is not above the version read. */
  lemma FreshExactlyWhenNotAhead(w: World, op: nat, tx: TxOutcome)
    requires Reachable(w) && Applies(w, op, tx)
    ensures var Op(_, ToUpdate(base, v, expected, _)) := w.ops[op];
            base == w.rows[v.id] <==> expected <= base.version
  {
    hide TablesOk;
    hide OutboxOk;
    hide KeysUnique;
    hide OpsOk;
    hide Staged;
    ReachableInv(w);
    var Op(call, ToUpdate(base, v, expected, info)) := w.ops[op];
    UpdatingIsStaged(w, op);
    if expected <= base.version {
      StaleVersionsLose(w, call, base, v, expected, info);
    }
  }

  lemma {:induction false} HonestRunIsFresh(w: World, run: seq<Label>)
    requires Inv(w) && HonestOps(w) && HonestRun(w, run)
    ensures FreshRun(w, run)
    decreases |run|
  {
    hide Inv;
    hide HonestOps;
    hide HonestStep;
    hide Enabled;
    hide Apply;
    hide FreshWrite;
    if run != [] {
      HonestIsFresh(w, run[0]);
      HonestKept(w, run[0]);
      StepKeepsInv(w, run[0]);
      HonestRunIsFresh(Apply(w, run[0]), run[1..]);
    }
  }

  // ---- Serial runs ----

  ghost predicate Quiet(w: World) {
    forall op :: op in w.ops ==> w.ops[op].pc.Returned?
  }

  /** A call begins only when every earlier one has returned or crashed. */
  ghost predicate SerialRun(w: World, run: seq<Label>)
    decreases |run|
  {
    run == [] || (Enabled(w, run[0]) && (run[0].Begin? ==> Quiet(w)) && SerialRun(Apply(w, run[0]), run[1..]))
  }

  /** The row snapshot a call still relies on. */
  function Held(pc: Pc): Option<Metadata> {
    match pc
    case ToFinish(v) => Some(v)
    case ToStat(v) => Some(v)
    case ToAbort(v) => Some(v)
    case ToRemove(v) => Some(v)
    case ToUpdate(base, _, _, _) => Some(base)
    case _ => None
  }

  /** The snapshot of the call is the row as it is now. */
  ghost predicate Current(w: World, o: Op) {
    Held(o.pc).Some? ==> Held(o.pc).value.id in w.rows && w.rows[Held(o.pc).value.id] == Held(o.pc).value
  }

  ghost predicate Solo(w: World) {
    && (forall p, q :: p in w.ops && q in w.ops && !w.ops[p].pc.Returned? && !w.ops[q].pc.Returned? ==> p == q)
    && (forall p :: p in w.ops ==> Current(w, w.ops[p]))
  }

  lemma CurrentAfterRead(w: World, o: Op, grant: Grant, dbOk: bool, id: string, now: int)
    requires TablesOk(w) && (o.pc == Start || (o.pc == Reread && o.call.req.CompleteMultipart?))
    ensures Current(w, Op(o.call, AfterRead(w.rows, o, grant, dbOk, id, now)))
  {
    hide Draft;
    hide Admission;
    hide Planned;
    hide TablesOk;
    hide Acceptable;
    var req := o.call.req;
    if req.Cleanup? && req.id in w.rows {
      RowIsSnapshot(w, req.id);
    } else if !req.InitiateSingle? && !req.InitiateMultipart? && !req.Cleanup? && Find(w.rows, req.target).Some? {
      RowIsSnapshot(w, req.target.id);
    }
  }

  lemma SoloMove(w: World, l: Label)
    requires Enabled(w, l) && IsStoreStep(l) && Current(w, w.ops[l.op])
    ensures Apply(w, l).rows == w.rows && l.op in Apply(w, l).ops
    ensures Current(w, Apply(w, l).ops[l.op])
  {
    hide Apply;
    hide Planned;
    hide CasVersion;
    StoreStepIs(w, l);
  }

  /** After the first commit of a deletion the call holds the row it has just written. */
  lemma SoloUpdate(w: World, op: nat, tx: TxOutcome)
    requires Inv(w) && Enabled(w, Update(op, tx))
    ensures var w' := Apply(w, Update(op, tx)); op in w'.ops && Current(w', w'.ops[op])
  {
    hide Apply;
    hide TablesOk;
    hide Staged;
    hide Facts;
    hide StatusOk;
    hide DbUpdate;
    UpdatingIsStaged(w, op);
    var Op(call, ToUpdate(base, v, expected, info)) := w.ops[op];
    if Applies(w, op, tx) {
      UpdatedRow(w, call, base, v, expected, info);
    }
    UpdateMoves(w, op, tx);
  }

  lemma ActiveBefore(w: World, l: Label)
    requires Enabled(w, l) && !l.Put? && !l.Begin? && !l.Crash?
    ensures l.op in w.ops && !w.ops[l.op].pc.Returned?
  {
  }

  lemma SoloInsert(w: World, op: nat, tx: TxOutcome)
    requires Enabled(w, Insert(op, tx))
    ensures var w' := Apply(w, Insert(op, tx)); op in w'.ops && Held(w'.ops[op].pc).None?
    ensures forall id :: id in w.rows ==> id in Apply(w, Insert(op, tx)).rows && Apply(w, Insert(op, tx)).rows[id] == w.rows[id]
  {
    hide KeyTaken;
  }

  lemma SoloMovesOne(w: World, l: Label)
    requires Inv(w) && Enabled(w, l) && Solo(w) && (l.Begin? ==> Quiet(w))
    ensures !l.Put? && l.op in Apply(w, l).ops ==> Current(Apply(w, l), Apply(w, l).ops[l.op])
  {
    hide Inv;
    hide Apply;
    match l
    case Begin(op, call) => BeginAtStart(w, op, call);
    case Read(op, grant, dbOk, id, now) =>
      ReadMoves(w, l);
      TablesMoveOnlyBy(w, l);
      InvTables(w);
      CurrentAfterRead(w, w.ops[op], grant, dbOk, id, now);
    case Insert(op, tx) => SoloInsert(w, op, tx);
    case Update(op, tx) => SoloUpdate(w, op, tx);
    case Put(_) =>
    case Crash(op) => CrashForgets(w, op);
    case _ => SoloMove(w, l);
  }

  lemma SoloKept(w: World, l: Label)
    requires Inv(w) && Enabled(w, l) && Solo(w) && (l.Begin? ==> Quiet(w))
    ensures Solo(Apply(w, l))
  {
    hide Inv;
    hide Apply;
    hide Enabled;
    OthersUntouched(w, l);
    SoloMovesOne(w, l);
    if l.Put? {
      TablesMoveOnlyBy(w, l);
    } else if l.Crash? {
      CrashForgets(w, l.op);
      TablesMoveOnlyBy(w, l);
    } else if !l.Begin? {
      ActiveBefore(w, l);
      assert forall p :: p in w.ops && p != l.op ==> w.ops[p].pc.Returned?;
    } else {
      TablesMoveOnlyBy(w, l);
    }
  }

  lemma SoloIsFresh(w: World, l: Label)
    requires Inv(w) && Enabled(w, l) && Solo(w)
    ensures FreshWrite(w, l)
  {
    if l.Update? && Applies(w, l.op, l.tx) {
      var Op(call, ToUpdate(base, v, expected, info)) := w.ops[l.op];
      UpdatingIsStaged(w, l.op);
      assert Current(w, w.ops[l.op]);
      UpdatedRow(w, call, base, v, expected, info);
    }
  }

  lemma {:induction false} SerialRunIsFresh(w: World, run: seq<Label>)
    requires Inv(w) && Solo(w) && SerialRun(w, run)
    ensures FreshRun(w, run) && IsRun(w, run) && Solo(After(w, run))
    decreases |run|
  {
    hide Inv;
    hide Solo;
    hide Quiet;
    hide Enabled;
    hide Apply;
    hide FreshWrite;
    if run != [] {
      SoloIsFresh(w, run[0]);
      SoloKept(w, run[0]);
      StepKeepsInv(w, run[0]);
      SerialRunIsFresh(Apply(w, run[0]), run[1..]);
    }
  }

  // ---- Serializability ----

  datatype Tables = Tables(rows: map<string, Metadata>, outbox: seq<Event>)

  /** A whole initiation at once: look the key up and, if it is free, insert row and event.
      The id, the session id and the clock are inputs. */
  ghost function RunInitiate(t: Tables, call: Call, id: string, uploadId: string, now: int): Tables
    requires call.req.InitiateSingle? || call.req.InitiateMultipart?
  {
    match Draft(call, Granted, id, now)
    case Err(_) => t
    case Ok(d) =>
      var v := if call.req.InitiateMultipart? then d.(uploadId := uploadId) else d;
      if id in t.rows || FindByKey(t.rows, v.tenant, v.application, v.idempotencyKey).Some? then t
      else Tables(t.rows[id := v], t.outbox + [Project(v)])
  }

  /** A whole operation at once up to its commit, all tests made on the current row: `info` is
      what Stat answers, `now` the clock. A deletion takes two of these steps. */
  function RunUpdate(t: Tables, call: Call, id: string, info: Option<ObjectInfo>, now: int): Tables {
    if id !in t.rows || !Names(call, t.rows[id]) then t
    else
      var row := t.rows[id];
      if call.req.CompleteMultipart? && !(MultipartOpen(call.req, row) && Acceptable(call.req.parts, row.partCount)) then t
      else match Planned(call, row, info, now)
        case None => t
        case Some(p) =>
          if CasVersion(call, row) != row.version then t
          else
            var next := p.(version := row.version + 1);
            Tables(t.rows[id := next], t.outbox + [Project(next)])
  }

  /** The inputs of a commit, run as one atomic operation. */
  ghost function RunCommit(t: Tables, c: Commit): Tables {
    if c.call.req.InitiateSingle? || c.call.req.InitiateMultipart?
    then RunInitiate(t, c.call, c.row.id, c.row.uploadId, c.row.createdAt)
    else RunUpdate(t, c.call, c.row.id, c.info, c.row.updatedAt)
  }

  ghost function RunLog(t: Tables, log: seq<Commit>): Tables {
    if log == [] then t else RunCommit(RunLog(t, log[..|log| - 1]), log[|log| - 1])
  }

  function TablesOf(w: World): Tables {
    Tables(w.rows, w.outbox)
  }

  /** The committed operations, one at a time and in commit order, produce the tables. */
  ghost predicate Serialized(w: World) {
    RunLog(Tables(map[], []), w.log) == TablesOf(w)
  }

  lemma RunLogAppend(t: Tables, log: seq<Commit>, c: Commit)
    ensures RunLog(t, log + [c]) == RunCommit(RunLog(t, log), c)
  {
    assert (log + [c])[..|log|] == log;
  }

  lemma InsertIsAtomic(w: World, call: Call, v: Metadata)
    requires CanInsert(w, v) && Drafted(call, v)
    ensures RunCommit(TablesOf(w), Commit(call, None, 0, v)) == TablesOf(InsertRow(w, call, v))
  {
    hide Draft;
  }

  lemma RunUpdateCommits(t: Tables, call: Call, row: Metadata, v: Metadata, info: Option<ObjectInfo>)
    requires row.id in t.rows && t.rows[row.id] == row && Names(call, row)
    requires Planned(call, row, info, v.updatedAt) == Some(v) && CasVersion(call, row) == row.version
    requires call.req.CompleteMultipart? ==>
      MultipartOpen(call.req, row) && Acceptable(call.req.parts, row.partCount)
    ensures var next := v.(version := row.version + 1);
            RunUpdate(t, call, row.id, info, v.updatedAt) == Tables(t.rows[row.id := next], t.outbox + [Project(next)])
  {
  }

  lemma UpdateRowTables(w: World, call: Call, base: Metadata, v: Metadata, expected: int, info: Option<ObjectInfo>)
    requires CanUpdate(w, v, expected) && DbUpdate(w.rows[v.id], v) == v.(version := expected + 1)
    ensures var next := v.(version := expected + 1);
            TablesOf(UpdateRow(w, call, base, v, expected, info))
            == Tables(w.rows[v.id := next], w.outbox + [Project(next)])
  {
    hide DbUpdate;
    hide Project;
  }

  lemma RunCommitUpdates(t: Tables, c: Commit)
    requires !c.call.req.InitiateSingle? && !c.call.req.InitiateMultipart?
    ensures RunCommit(t, c) == RunUpdate(t, c.call, c.row.id, c.info, c.row.updatedAt)
  {
    hide RunUpdate;
    hide RunInitiate;
  }

  lemma UpdateIsAtomic(w: World, call: Call, base: Metadata, v: Metadata, expected: int, info: Option<ObjectInfo>)
    requires TablesOk(w) && CanUpdate(w, v, expected) && Staged(w, call, base, v, expected, info)
    requires base == w.rows[v.id] && base.version >= 0
    ensures RunCommit(TablesOf(w), Commit(call, info, base.version, v.(version := expected + 1)))
            == TablesOf(UpdateRow(w, call, base, v, expected, info))
  {
    hide Staged;
    hide TablesOk;
    hide Planned;
    hide MultipartOpen;
    hide Acceptable;
    hide CasVersion;
    hide Names;
    hide Facts;
    hide DbUpdate;
    hide StatusOk;
    hide RunUpdate;
    hide RunCommit;
    hide RunInitiate;
    hide UpdateRow;
    hide Project;
    UpdatedRow(w, call, base, v, expected, info);
    OpenWhenCurrent(w, call, base, v, expected, info);
    PlanNeedsRow(call, base, info, v.updatedAt);
    UpdateRowTables(w, call, base, v, expected, info);
    RunUpdateCommits(TablesOf(w), call, base, v, info);
    RunCommitUpdates(TablesOf(w), Commit(call, info, base.version, v.(version := expected + 1)));
  }

  /** What the row test of a multipart completion saw still holds of the row it replaces. */
  lemma OpenWhenCurrent(w: World, call: Call, base: Metadata, v: Metadata, expected: int, info: Option<ObjectInfo>)
    requires TablesOk(w) && CanUpdate(w, v, expected) && Staged(w, call, base, v, expected, info)
    requires base.id == v.id && base == w.rows[v.id] && |w.history[v.id]| == expected
    ensures Names(call, base) && CasVersion(call, base) == base.version
    ensures Planned(call, base, info, v.updatedAt) == Some(v)
    ensures call.req.CompleteMultipart? ==>
      MultipartOpen(call.req, base) && Acceptable(call.req.parts, base.partCount)
  {
    hide Planned;
    hide HistoryOk;
    hide Acceptable;
  }

  lemma PlanNeedsRow(call: Call, v: Metadata, info: Option<ObjectInfo>, now: int)
    requires Planned(call, v, info, now).Some?
    ensures !call.req.InitiateSingle? && !call.req.InitiateMultipart?
  {
  }

  lemma InsertSerializes(w: World, op: nat, tx: TxOutcome)
    requires OpsOk(w) && Enabled(w, Insert(op, tx)) && Serialized(w)
    ensures Serialized(Apply(w, Insert(op, tx)))
  {
    var Op(call, pc) := w.ops[op];
    InsertingIsDrafted(w, op);
    hide RunCommit;
    hide Drafted;
    hide OpsOk;
    if CanInsert(w, pc.v) && tx != RolledBack {
      InsertIsAtomic(w, call, pc.v);
      RunLogAppend(Tables(map[], []), w.log, Commit(call, None, 0, pc.v));
    }
  }

  lemma UpdateSerializes(w: World, op: nat, tx: TxOutcome)
    requires TablesOk(w) && OpsOk(w) && Enabled(w, Update(op, tx)) && FreshWrite(w, Update(op, tx)) && Serialized(w)
    ensures Serialized(Apply(w, Update(op, tx)))
  {
    hide RunCommit;
    var Op(call, ToUpdate(base, v, expected, info)) := w.ops[op];
    UpdatingIsStaged(w, op);
    hide OpsOk;
    if Applies(w, op, tx) {
      UpdatedRow(w, call, base, v, expected, info);
      StagedVersion(w, call, base, v, expected, info);
      UpdateIsAtomic(w, call, base, v, expected, info);
      RunLogAppend(Tables(map[], []), w.log, Commit(call, info, base.version, v.(version := expected + 1)));
    }
    hide TablesOk;
    hide Staged;
    hide DbUpdate;
    hide Facts;
    hide StatusOk;
  }

  lemma StagedVersion(w: World, call: Call, base: Metadata, v: Metadata, expected: int, info: Option<ObjectInfo>)
    requires Staged(w, call, base, v, expected, info)
    ensures base.version >= 1
  {
  }

  lemma CommitsSerialize(w: World, l: Label)
    requires Inv(w) && Enabled(w, l) && FreshWrite(w, l) && Serialized(w)
    ensures Serialized(Apply(w, l))
  {
    hide Apply;
    hide FreshWrite;
    hide TablesOk;
    hide OutboxOk;
    hide KeysUnique;
    hide OpsOk;
    if l.Insert? {
      InsertSerializes(w, l.op, l.tx);
    } else if l.Update? {
      UpdateSerializes(w, l.op, l.tx);
    } else {
      TablesMoveOnlyBy(w, l);
    }
  }

  lemma {:induction false} FreshRunSerializes(w: World, run: seq<Label>)
    requires Inv(w) && FreshRun(w, run) && Serialized(w)
    ensures IsRun(w, run) && Serialized(After(w, run))
    decreases |run|
  {
    hide Inv;
    hide Serialized;
    hide Enabled;
    hide Apply;
    hide FreshWrite;
    if run != [] {
      CommitsSerialize(w, run[0]);
      StepKeepsInv(w, run[0]);
      FreshRunSerializes(Apply(w, run[0]), run[1..]);
    }
  }

  /** Serializability: with callers who never present a version above the one read, rows and
      outbox after any interleaving are those of the committed operations run atomically one
      at a time in commit order. */
  lemma HonestRunsAreSerializable(run: seq<Label>)
    requires HonestRun(EMPTY, run)
    ensures IsRun(EMPTY, run)
    ensures RunLog(Tables(map[], []), After(EMPTY, run).log) == TablesOf(After(EMPTY, run))
  {
    EmptyInv();
    HonestRunIsFresh(EMPTY, run);
    FreshRunSerializes(EMPTY, run);
  }

  /** The steps that do not commit leave tables, events and log as they were. */
  lemma OnlyCommitsChangeTables(w: World, l: Label)
    requires Enabled(w, l)
    requires !(l.Insert? && CanInsert(w, w.ops[l.op].pc.v) && l.tx != RolledBack)
    requires !(l.Update? && Applies(w, l.op, l.tx))
    ensures TablesOf(Apply(w, l)) == TablesOf(w) && Apply(w, l).log == w.log && Apply(w, l).history == w.history
  {
    if !l.Insert? && !l.Update? {
      TablesMoveOnlyBy(w, l);
    }
  }
}
