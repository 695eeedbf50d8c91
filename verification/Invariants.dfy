/** What every step of every interleaving keeps, whatever versions callers expect. */
module Invariants {
  import opened Basics
  import opened Completion
  import opened ObjectKeys
  import opened Model
  import opened Protocol

  /** `v` is what the initiating call of the row would insert, up to the session id. */
  ghost predicate Drafted(call: Call, v: Metadata) {
    && (call.req.InitiateSingle? || call.req.InitiateMultipart?)
    && IsUuid(v.id)
    && Draft(call, Granted, v.id, v.createdAt) == Ok(v.(uploadId := ""))
    && (call.req.InitiateSingle? ==> v.uploadId == "")
  }

  lemma DraftNeedsGrant(call: Call, grant: Grant, id: string, now: int)
    requires call.req.InitiateSingle? || call.req.InitiateMultipart?
    requires Draft(call, grant, id, now).Ok?
    ensures Draft(call, Granted, id, now) == Draft(call, grant, id, now)
    ensures var v := Draft(call, grant, id, now).value;
            v.id == id && v.createdAt == now && v.uploadId == "" && Facts(v) == v
            && v.mode == (if call.req.InitiateSingle? then Single else Multipart)
  {
  }

  /** The call of a later commit accounts for the status and scan status it left. */
  predicate Accounts(c: Commit) {
    var (s, scan) := (c.row.status, c.row.scan);
    match c.call.req
    case CompleteMultipart(_, _, _, _) => s == Ready && scan == ReadyScan(c.call)
    case Complete(_, _, _) => s == Ready && scan == ReadyScan(c.call)
    case Abort(_, _) => s == Deleted
    case Report(_, result, _) => s == Ready && scan == result && (result == ScanClean || result == ScanInfected)
    case Delete(_, _) => s == Deleting || s == Deleted
    case Cleanup(_, _) => s == Expired
    case _ => false
  }

  /** Commit `k` of a file wrote what its call planned from the snapshot it had seen. */
  ghost predicate Derived(h: seq<Commit>, k: int)
    requires 0 < k < |h|
  {
    var c := h[k];
    && 1 <= c.seen <= k
    && Names(c.call, h[c.seen - 1].row)
    && Planned(c.call, h[c.seen - 1].row, c.info, c.row.updatedAt) == Some(c.row.(version := c.seen))
    && CasVersion(c.call, h[c.seen - 1].row) == k
    && (c.call.req.CompleteMultipart? ==>
          MultipartOpen(c.call.req, h[k - 1].row) && Acceptable(c.call.req.parts, h[k - 1].row.partCount))
    && Accounts(c)
  }

  predicate StatusOk(row: Metadata) {
    && (row.status == PendingUpload <==> row.version == 1)
    && (row.status == Expired ==> row.version == 2)
    && (row.status == PendingUpload || row.status == Expired ==> row.scan == ScanPending)
  }

  /** `h` is a possible life of file `id`: versions 1, 2, ... in order, every one with the
      facts of the first and the status its version allows. */
  ghost predicate HistoryOk(id: string, h: seq<Commit>) {
    && h != [] && h[0].row.id == id && Drafted(h[0].call, h[0].row) && Facts(h[0].row) == h[0].row
    && (forall k :: 0 <= k < |h| ==>
          h[k].row.version == k + 1 && Facts(h[k].row) == h[0].row && StatusOk(h[k].row))
    && (forall k :: 0 < k < |h| ==> Derived(h, k))
  }

  ghost predicate TablesOk(w: World) {
    && w.rows.Keys == w.history.Keys
    && (forall id :: id in w.history ==> HistoryOk(id, w.history[id]))
    && (forall id :: id in w.rows ==> w.rows[id] == w.history[id][|w.history[id]| - 1].row)
  }

  predicate SameKey(v: Metadata, u: Metadata) {
    HasKey(v, u.tenant, u.application, u.idempotencyKey)
  }

  ghost predicate KeysUnique(w: World) {
    forall i, j :: i in w.rows && j in w.rows && SameKey(w.rows[i], w.rows[j]) ==> i == j
  }

  function EventsOf(outbox: seq<Event>, id: string): seq<Event> {
    if outbox == [] then []
    else
      var e := outbox[|outbox| - 1];
      EventsOf(outbox[..|outbox| - 1], id) + (if e.file.id == id then [e] else [])
  }

  function Projections(h: seq<Commit>): (r: seq<Event>)
    ensures |r| == |h| && forall k :: 0 <= k < |h| ==> r[k] == Project(h[k].row)
  {
    seq(|h|, k requires 0 <= k < |h| => Project(h[k].row))
  }

  ghost predicate OutboxOk(w: World) {
    forall id :: EventsOf(w.outbox, id) == Projections(Past(w, id))
  }

  /** `v` is a row the table really held. */
  ghost predicate Snapshot(w: World, v: Metadata) {
    && v.id in w.history && 1 <= v.version <= |w.history[v.id]|
    && w.history[v.id][v.version - 1].row == v
  }

  /** The multipart row test passed on the version the caller expects. */
  ghost predicate Assembling(w: World, call: Call) {
    call.req.CompleteMultipart? ==>
      && call.req.target.id in w.history
      && 1 <= call.req.expected <= |w.history[call.req.target.id]|
      && var row := w.history[call.req.target.id][call.req.expected - 1].row;
         MultipartOpen(call.req, row) && Acceptable(call.req.parts, row.partCount)
  }

  predicate Plannable(call: Call, v: Metadata) {
    Planned(call, v, None, 0).Some?
  }

  predicate Completing(call: Call) {
    call.req.Complete? || call.req.CompleteMultipart?
  }

  /** `v` is what the call planned from `base`, a row the table held when the call read it. */
  ghost predicate Staged(w: World, call: Call, base: Metadata, v: Metadata, expected: int, info: Option<ObjectInfo>) {
    && Snapshot(w, base) && Names(call, base) && Assembling(w, call)
    && Planned(call, base, info, v.updatedAt) == Some(v) && expected == CasVersion(call, base)
  }

  /** What is known of a call from where it stands. */
  ghost predicate OpOk(w: World, o: Op) {
    var call := o.call;
    match o.pc
    case Start => true
    case ToOpen(v) => Drafted(call, v) && Facts(v) == v && v.mode == Multipart
    case ToInsert(v) => Drafted(call, v) && Facts(v) == v
    case ToUndo(v) => Drafted(call, v) && Facts(v) == v && v.mode == Multipart
    case ToFinish(v) =>
      && Snapshot(w, v) && Names(call, v) && call.req.CompleteMultipart?
      && MultipartOpen(call.req, v) && Acceptable(call.req.parts, v.partCount)
    case Reread => call.req.CompleteMultipart? && Assembling(w, call)
    case ToStat(v) => Snapshot(w, v) && Names(call, v) && Completing(call) && Assembling(w, call)
    case ToAbort(v) =>
      && Snapshot(w, v) && Names(call, v) && (call.req.Abort? || call.req.Cleanup?)
      && v.mode == Multipart && Plannable(call, v)
    case ToRemove(v) =>
      && Snapshot(w, v) && Names(call, v)
      && ((call.req.Delete? && v.status == Deleting) || (call.req.Cleanup? && v.mode == Single))
      && Plannable(call, v)
    case ToUpdate(base, v, expected, info) => Staged(w, call, base, v, expected, info)
    case ToSign(v) => Snapshot(w, v) && (call.req.Download? ==> Names(call, v) && Downloadable(v))
    case Returned(Row(v)) => Snapshot(w, v)
    case Returned(Url(v)) => Snapshot(w, v) && (call.req.Download? ==> Names(call, v) && Downloadable(v))
    case Returned(Failed(_)) => true
  }

  ghost predicate OpsOk(w: World) {
    forall op :: op in w.ops ==> OpOk(w, w.ops[op])
  }

  ghost predicate Inv(w: World) {
    TablesOk(w) && KeysUnique(w) && OutboxOk(w) && OpsOk(w)
  }

  /** Histories only grow. */
  ghost predicate Extends(w: World, w': World) {
    forall id :: id in w.history ==> id in w'.history && w.history[id] <= w'.history[id]
  }

  lemma OpIsOk(w: World, op: nat)
    requires OpsOk(w) && op in w.ops
    ensures OpOk(w, w.ops[op])
  {
    hide OpOk;
  }

  lemma UpdatingIsStaged(w: World, op: nat)
    requires OpsOk(w) && op in w.ops && w.ops[op].pc.ToUpdate?
    ensures var Op(call, ToUpdate(base, v, expected, info)) := w.ops[op]; Staged(w, call, base, v, expected, info)
  {
    hide Staged;
    assert OpOk(w, w.ops[op]);
  }

  lemma InsertingIsDrafted(w: World, op: nat)
    requires OpsOk(w) && op in w.ops && w.ops[op].pc.ToInsert?
    ensures Drafted(w.ops[op].call, w.ops[op].pc.v) && Facts(w.ops[op].pc.v) == w.ops[op].pc.v
  {
    hide Drafted;
    assert OpOk(w, w.ops[op]);
  }

  lemma HistoryIsAccounted(id: string, h: seq<Commit>, k: int)
    requires HistoryOk(id, h) && 0 < k < |h|
    ensures Accounts(h[k]) && StatusOk(h[k].row)
  {
    hide Drafted;
    hide Planned;
    hide Names;
    assert Derived(h, k);
  }

  lemma SnapshotStays(w: World, w': World, v: Metadata)
    requires Extends(w, w') && Snapshot(w, v)
    ensures Snapshot(w', v)
  {
  }

  lemma OpStaysOk(w: World, w': World, o: Op)
    requires Extends(w, w') && OpOk(w, o)
    ensures OpOk(w', o)
  {
  }

  lemma RowIsSnapshot(w: World, id: string)
    requires TablesOk(w) && id in w.rows
    ensures Snapshot(w, w.rows[id]) && w.rows[id].id == id
    ensures |w.history[id]| == w.rows[id].version
  {
    var h := w.history[id];
    assert HistoryOk(id, h);
    assert Facts(h[|h| - 1].row).id == h[|h| - 1].row.id;
  }

  /** A step that touches neither tables nor history keeps the invariant if it leaves the
      call it moves in order. */
  lemma MoveKeepsInv(w: World, w': World, op: nat)
    requires Inv(w)
    requires w'.rows == w.rows && w'.outbox == w.outbox && w'.history == w.history
    requires forall p :: p in w'.ops ==> (p in w.ops && w'.ops[p] == w.ops[p]) || p == op
    requires op in w'.ops ==> OpOk(w', w'.ops[op])
    ensures Inv(w') && Extends(w, w')
  {
    hide OpOk;
    hide HistoryOk;
    OtherOpsStayOk(w, w', op);
    SameOutboxOk(w, w');
  }

  lemma SameOutboxOk(w: World, w': World)
    requires OutboxOk(w) && w'.outbox == w.outbox && w'.history == w.history
    ensures OutboxOk(w')
  {
    hide EventsOf;
    hide Projections;
    forall id ensures EventsOf(w'.outbox, id) == Projections(Past(w', id)) {
      assert Past(w', id) == Past(w, id);
    }
  }

  /** The other calls only rely on rows the table once held. */
  lemma OtherOpsStayOk(w: World, w': World, op: nat)
    requires OpsOk(w) && Extends(w, w')
    requires forall p :: p in w'.ops ==> (p in w.ops && w'.ops[p] == w.ops[p]) || p == op
    requires op in w'.ops ==> OpOk(w', w'.ops[op])
    ensures OpsOk(w')
  {
    hide OpOk;
    forall p | p in w'.ops ensures OpOk(w', w'.ops[p]) {
      if p != op {
        OpStaysOk(w, w', w'.ops[p]);
      }
    }
  }

  lemma EventsOfAppend(outbox: seq<Event>, e: Event, id: string)
    ensures EventsOf(outbox + [e], id) == EventsOf(outbox, id) + (if e.file.id == id then [e] else [])
  {
    assert (outbox + [e])[..|outbox|] == outbox;
  }

  /** Appending one commit and its event keeps the outbox the image of the histories. */
  lemma AppendKeepsOutbox(w: World, w': World, id: string, c: Commit)
    requires OutboxOk(w) && c.row.id == id
    requires w'.outbox == w.outbox + [Project(c.row)]
    requires w'.history == w.history[id := Past(w, id) + [c]]
    ensures OutboxOk(w')
  {
    forall i ensures EventsOf(w'.outbox, i) == Projections(Past(w', i)) {
      EventsOfAppend(w.outbox, Project(c.row), i);
      if i == id {
        assert Projections(Past(w, id) + [c]) == Projections(Past(w, id)) + [Project(c.row)];
      }
    }
  }

  // ---- What each step moves ----

  predicate IsStoreStep(l: Label) {
    l.OpenSession? || l.Undo? || l.Finish? || l.Stat? || l.AbortSession? || l.Remove? || l.Sign?
  }

  /** Where a step on the object store leaves its call. */
  ghost function StorePc(w: World, l: Label): Pc
    requires IsStoreStep(l) && Enabled(w, l)
  {
    var Op(call, pc) := w.ops[l.op];
    match l
    case OpenSession(_, outcome, uploadId) =>
      if outcome == Done then ToInsert(pc.v.(uploadId := uploadId)) else Returned(Failed(Unavailable))
    case Undo(_, _) => Returned(Failed(Internal))
    case Finish(_, outcome, _, _) =>
      if outcome == Done && IsOpen(w, pc.v.uploadId) then Reread else Returned(Failed(Unavailable))
    case Stat(_, ok, now) => AfterStat(call, pc.v, w.objects, ok, now)
    case AbortSession(_, outcome, now) => AfterRelease(call, pc.v, outcome, now)
    case Remove(_, outcome, now) => AfterRelease(call, pc.v, outcome, now)
    case Sign(_, ok) => Returned(if ok then Url(pc.v) else Failed(Unavailable))
  }

  /** A step on the object store moves its call, objects and sessions, and nothing else. */
  lemma StoreStepIs(w: World, l: Label)
    requires IsStoreStep(l) && Enabled(w, l)
    ensures var w' := Apply(w, l);
            && w'.rows == w.rows && w'.outbox == w.outbox && w'.history == w.history && w'.log == w.log
            && w'.ops == w.ops[l.op := w.ops[l.op].(pc := StorePc(w, l))]
  {
    if l.Finish? {
      FinishIs(w, l);
      hide Apply;
    } else {
      hide AfterStat;
      hide AfterRelease;
      hide AfterRead;
      hide DoUpdate;
      hide DoInsert;
      hide DoFinish;
    }
  }

  lemma FinishIs(w: World, l: Label)
    requires l.Finish? && Enabled(w, l)
    ensures Apply(w, l) == DoFinish(w, l.op, l.outcome, l.size, l.keepsChecksum)
  {
    hide AfterStat;
    hide AfterRelease;
    hide AfterRead;
    hide DoUpdate;
    hide DoInsert;
    hide DoFinish;
    hide Close;
  }

  lemma UpdateIs(w: World, op: nat, tx: TxOutcome)
    requires Enabled(w, Update(op, tx))
    ensures Apply(w, Update(op, tx)) == DoUpdate(w, op, tx)
  {
    hide AfterRead;
    hide AfterStat;
    hide AfterRelease;
    hide DoInsert;
    hide DoUpdate;
    hide DoFinish;
    hide Close;
  }

  lemma InsertIs(w: World, op: nat, tx: TxOutcome)
    requires Enabled(w, Insert(op, tx))
    ensures Apply(w, Insert(op, tx)) == DoInsert(w, op, tx)
  {
    hide AfterRead;
    hide AfterStat;
    hide AfterRelease;
    hide DoInsert;
    hide DoUpdate;
    hide DoFinish;
    hide Close;
  }

  /** An insert transaction that takes effect adds one row. */
  lemma InsertMoves(w: World, op: nat, tx: TxOutcome)
    requires Enabled(w, Insert(op, tx))
    ensures var (w', v) := (Apply(w, Insert(op, tx)), w.ops[op].pc.v);
            var applied := CanInsert(w, v) && tx != RolledBack;
            && w'.rows == (if applied then w.rows[v.id := v] else w.rows)
            && w'.objects == w.objects && w'.sessions == w.sessions
            && op in w'.ops && w'.ops[op].call == w.ops[op].call
            && w'.ops[op].pc == (if applied && tx == Committed then (if v.mode == Single then ToSign(v) else Returned(Row(v)))
                                 else if v.mode == Single then Returned(Failed(Internal))
                                 else ToUndo(v))
  {
    hide Apply;
    hide CanInsert;
    hide Project;
    InsertIs(w, op, tx);
  }

  /** An update transaction that takes effect writes one row; the call holds on to the row only
      when it goes on from a deletion mark. */
  lemma UpdateMoves(w: World, op: nat, tx: TxOutcome)
    requires Enabled(w, Update(op, tx))
    ensures var w' := Apply(w, Update(op, tx));
            var Op(call, ToUpdate(_, v, expected, _)) := w.ops[op];
            && w'.rows == (if Applies(w, op, tx) then w.rows[v.id := DbUpdate(w.rows[v.id], v)] else w.rows)
            && w'.objects == w.objects && w'.sessions == w.sessions && op in w'.ops && w'.ops[op].call == call
            && w'.ops[op].pc == (if !Applies(w, op, tx) then Returned(Failed(if tx == RolledBack then Internal else StaleVersion))
                                 else if tx != Committed then Returned(Failed(Internal))
                                 else if call.req.Delete? && v.status == Deleting then ToRemove(v.(version := expected + 1))
                                 else Returned(Row(v.(version := expected + 1))))
  {
    hide Apply;
    hide DbUpdate;
    hide Project;
    UpdateIs(w, op, tx);
  }

  lemma RemoveMoves(w: World, l: Label)
    requires l.Remove? && Enabled(w, l)
    ensures Apply(w, l).sessions == w.sessions
    ensures Apply(w, l).objects == if l.outcome == NotDone then w.objects else w.objects - {w.ops[l.op].pc.v.objectKey}
  {
    hide AfterRelease;
  }

  lemma BeginStep(w: World, op: nat, call: Call)
    requires Inv(w) && Enabled(w, Begin(op, call))
    ensures Inv(Apply(w, Begin(op, call))) && Extends(w, Apply(w, Begin(op, call)))
  {
    MoveKeepsInv(w, Apply(w, Begin(op, call)), op);
  }

  lemma FoundRow(w: World, call: Call)
    requires TablesOk(w) && !call.req.InitiateSingle? && !call.req.InitiateMultipart? && !call.req.Cleanup?
    requires Find(w.rows, call.req.target).Some?
    ensures var v := Find(w.rows, call.req.target).value; Snapshot(w, v) && Names(call, v)
  {
    RowIsSnapshot(w, call.req.target.id);
  }

  lemma PlanAnytime(call: Call, v: Metadata, info: Option<ObjectInfo>, now: int, then_: int)
    ensures Planned(call, v, info, now).Some? <==> Planned(call, v, info, then_).Some?
    ensures Planned(call, v, info, now).Some? ==> Planned(call, v, info, now).value.updatedAt == now
  {
  }

  lemma FirstReadOk(w: World, call: Call, v: Metadata, now: int)
    requires !call.req.InitiateSingle? && !call.req.InitiateMultipart? && !call.req.Cleanup?
    requires Snapshot(w, v) && Names(call, v)
    ensures OpOk(w, Op(call, AfterGet(call, v, now)))
  {
    PlanAnytime(call, v, None, now, 0);
    match call.req
    case CompleteMultipart(_, _, _, _) =>
    case Complete(_, _, _) =>
    case Abort(_, _) =>
    case Report(_, _, _) =>
    case Delete(_, _) =>
    case Download(_) =>
    case AuthorizePart(_, _) =>
  }

  lemma FoundByKey(w: World, tenant: string, application: string, key: string)
    requires TablesOk(w) && FindByKey(w.rows, tenant, application, key).Some?
    ensures var v := FindByKey(w.rows, tenant, application, key).value;
            Snapshot(w, v) && v.id in w.rows && w.rows[v.id] == v && HasKey(v, tenant, application, key)
  {
    var v := FindByKey(w.rows, tenant, application, key).value;
    var i :| i in w.rows && w.rows[i] == v;
    RowIsSnapshot(w, i);
  }

  lemma FreshDraft(call: Call, grant: Grant, id: string, now: int)
    requires (call.req.InitiateSingle? || call.req.InitiateMultipart?) && IsUuid(id)
    requires Draft(call, grant, id, now).Ok?
    ensures Drafted(call, Draft(call, grant, id, now).value)
  {
    hide Draft;
    DraftNeedsGrant(call, grant, id, now);
    var d := Draft(call, grant, id, now).value;
    assert d.(uploadId := "") == d;
  }

  lemma InitiateReadOk(w: World, call: Call, grant: Grant, dbOk: bool, id: string, now: int)
    requires TablesOk(w) && (call.req.InitiateSingle? || call.req.InitiateMultipart?) && IsUuid(id)
    ensures OpOk(w, Op(call, InitiateRead(w.rows, call, grant, dbOk, id, now)))
  {
    hide Draft;
    hide FindByKey;
    hide Drafted;
    hide Facts;
    hide Snapshot;
    hide TablesOk;
    if Draft(call, grant, id, now).Ok? {
      DraftNeedsGrant(call, grant, id, now);
      var d := Draft(call, grant, id, now).value;
      FreshDraft(call, grant, id, now);
      if FindByKey(w.rows, d.tenant, d.application, d.idempotencyKey).Some? {
        FoundByKey(w, d.tenant, d.application, d.idempotencyKey);
      }
    }
  }

  lemma ReadLeavesOk(w: World, o: Op, grant: Grant, dbOk: bool, id: string, now: int)
    requires TablesOk(w) && OpOk(w, o) && IsUuid(id)
    requires o.pc == Start || (o.pc == Reread && o.call.req.CompleteMultipart?)
    ensures OpOk(w, Op(o.call, AfterRead(w.rows, o, grant, dbOk, id, now)))
  {
    hide Draft;
    hide Planned;
    hide InitiateRead;
    hide AfterGet;
    hide Admission;
    hide Snapshot;
    hide TablesOk;
    if o.call.req.InitiateSingle? || o.call.req.InitiateMultipart? {
      InitiateReadOk(w, o.call, grant, dbOk, id, now);
    } else if o.call.req.Cleanup? {
      if o.call.req.id in w.rows && DueForCleanup(w.rows[o.call.req.id], o.call.req.before) {
        RowIsSnapshot(w, o.call.req.id);
        CleanupIsPlanned(o.call, w.rows[o.call.req.id]);
      }
    } else if Find(w.rows, o.call.req.target).Some? {
      FoundRow(w, o.call);
      FirstReadOk(w, o.call, Find(w.rows, o.call.req.target).value, now);
    }
  }

  lemma CleanupIsPlanned(call: Call, v: Metadata)
    requires call.req.Cleanup? && DueForCleanup(v, call.req.before)
    ensures Plannable(call, v)
  {
  }

  lemma ReadStep(w: World, l: Label)
    requires Inv(w) && l.Read? && Enabled(w, l)
    ensures Inv(Apply(w, l)) && Extends(w, Apply(w, l))
  {
    hide AfterRead;
    hide OpOk;
    assert OpOk(w, w.ops[l.op]);
    ReadLeavesOk(w, w.ops[l.op], l.grant, l.dbOk, l.id, l.now);
    OpStaysOk(w, Apply(w, l), Apply(w, l).ops[l.op]);
    MoveKeepsInv(w, Apply(w, l), l.op);
  }

  lemma ReleaseLeavesOk(w: World, o: Op, outcome: Outcome, now: int)
    requires (o.pc.ToAbort? || o.pc.ToRemove?) && OpOk(w, o)
    ensures OpOk(w, Op(o.call, AfterRelease(o.call, o.pc.v, outcome, now)))
  {
    PlanAnytime(o.call, o.pc.v, None, now, 0);
  }

  lemma StatLeavesOk(w: World, o: Op, ok: bool, now: int)
    requires o.pc.ToStat? && OpOk(w, o)
    ensures OpOk(w, Op(o.call, AfterStat(o.call, o.pc.v, w.objects, ok, now)))
  {
    if o.pc.v.objectKey in w.objects {
      PlanAnytime(o.call, o.pc.v, Some(w.objects[o.pc.v.objectKey]), now, 0);
    }
  }

  lemma OpenedStaysDrafted(call: Call, v: Metadata, uploadId: string)
    requires Drafted(call, v) && Facts(v) == v && v.mode == Multipart
    ensures Drafted(call, v.(uploadId := uploadId)) && Facts(v.(uploadId := uploadId)) == v.(uploadId := uploadId)
  {
    assert v.(uploadId := uploadId).(uploadId := "") == v.(uploadId := "");
    DraftNeedsGrant(call, Granted, v.id, v.createdAt);
  }

  lemma StoreStepMoves(w: World, l: Label)
    requires IsStoreStep(l) && Enabled(w, l) && OpOk(w, w.ops[l.op])
    ensures l.op in Apply(w, l).ops && OpOk(w, Apply(w, l).ops[l.op])
  {
    hide Apply;
    hide Drafted;
    hide Staged;
    hide AfterRelease;
    hide AfterStat;
    StoreStepIs(w, l);
    var o := w.ops[l.op];
    match l
    case OpenSession(_, _, uploadId) => OpenedStaysDrafted(o.call, o.pc.v, uploadId);
    case Undo(_, _) =>
    case Finish(_, _, _, _) =>
    case Stat(_, ok, now) => StatLeavesOk(w, o, ok, now);
    case AbortSession(_, outcome, now) => ReleaseLeavesOk(w, o, outcome, now);
    case Remove(_, outcome, now) => ReleaseLeavesOk(w, o, outcome, now);
    case Sign(_, _) =>
  }

  lemma StoreStepLeavesTables(w: World, l: Label)
    requires (IsStoreStep(l) || l.Crash?) && Enabled(w, l)
    ensures var w' := Apply(w, l);
            && w'.rows == w.rows && w'.outbox == w.outbox && w'.history == w.history && w'.log == w.log
            && forall p :: p in w'.ops && p != l.op ==> p in w.ops && w'.ops[p] == w.ops[p]
  {
    if l.Crash? {
      CrashIs(w, l.op);
    } else {
      hide Apply;
      hide StorePc;
      StoreStepIs(w, l);
    }
  }

  lemma CrashIs(w: World, op: nat)
    requires Enabled(w, Crash(op))
    ensures Apply(w, Crash(op)) == w.(ops := w.ops - {op})
  {
    hide AfterStat;
    hide AfterRelease;
    hide AfterRead;
    hide DoFinish;
    hide DoUpdate;
    hide DoInsert;
  }

  /** Every step that only moves one call and the object store. */
  lemma StoreStep(w: World, l: Label)
    requires Inv(w) && Enabled(w, l) && (IsStoreStep(l) || l.Crash?)
    ensures Inv(Apply(w, l)) && Extends(w, Apply(w, l))
  {
    hide Apply;
    hide OpOk;
    assert OpOk(w, w.ops[l.op]);
    StoreStepLeavesTables(w, l);
    if l.Crash? {
      CrashForgets(w, l.op);
    } else {
      StoreStepMoves(w, l);
      OpStaysOk(w, Apply(w, l), Apply(w, l).ops[l.op]);
    }
    MoveKeepsInv(w, Apply(w, l), l.op);
  }

  lemma CrashForgets(w: World, op: nat)
    requires Enabled(w, Crash(op))
    ensures op !in Apply(w, Crash(op)).ops
  {
  }

  lemma PutStep(w: World, id: string)
    requires Inv(w) && Enabled(w, Put(id))
    ensures Inv(Apply(w, Put(id))) && Extends(w, Apply(w, Put(id)))
  {
    hide OpOk;
    hide HistoryOk;
    var w' := Apply(w, Put(id));
    forall p | p in w'.ops ensures OpOk(w', w'.ops[p]) {
      OpStaysOk(w, w', w'.ops[p]);
    }
    SameOutboxOk(w, w');
  }

  lemma InsertedHistoryOk(call: Call, v: Metadata)
    requires Drafted(call, v) && Facts(v) == v
    ensures HistoryOk(v.id, [Commit(call, None, 0, v)])
  {
    hide Drafted;
  }

  lemma InsertKeepsTables(w: World, call: Call, v: Metadata)
    requires TablesOk(w) && KeysUnique(w) && OutboxOk(w) && CanInsert(w, v)
    requires Drafted(call, v) && Facts(v) == v
    ensures var w' := InsertRow(w, call, v);
            TablesOk(w') && KeysUnique(w') && OutboxOk(w') && Extends(w, w') && Snapshot(w', v)
  {
    hide Drafted;
    hide HistoryOk;
    hide KeyTaken;
    hide OutboxOk;
    hide KeysUnique;
    InsertedHistoryOk(call, v);
    assert v.version == 1 by { assert Facts(v).version == 1; }
    hide Facts;
    InsertKeepsOutbox(w, call, v);
    InsertKeepsKeys(w, call, v);
  }

  lemma InsertKeepsOutbox(w: World, call: Call, v: Metadata)
    requires OutboxOk(w) && v.id !in w.history
    ensures OutboxOk(InsertRow(w, call, v))
  {
    hide OutboxOk;
    var c := Commit(call, None, 0, v);
    assert Past(w, v.id) + [c] == [c];
    AppendKeepsOutbox(w, InsertRow(w, call, v), v.id, c);
  }

  lemma InsertKeepsKeys(w: World, call: Call, v: Metadata)
    requires KeysUnique(w) && CanInsert(w, v)
    ensures KeysUnique(InsertRow(w, call, v))
  {
    hide KeyTaken;
    var w' := InsertRow(w, call, v);
    forall i, j | i in w'.rows && j in w'.rows && SameKey(w'.rows[i], w'.rows[j]) ensures i == j {
      if i != v.id && j == v.id {
        TakenBy(w.rows, i, v);
      } else if i == v.id && j != v.id {
        TakenBy(w.rows, j, v);
      }
    }
  }

  lemma TakenBy(rows: map<string, Metadata>, id: string, v: Metadata)
    requires id in rows && SameKey(rows[id], v)
    ensures KeyTaken(rows, v.tenant, v.application, v.idempotencyKey)
  {
  }

  lemma DraftedByInitiate(call: Call, v: Metadata)
    requires Drafted(call, v)
    ensures call.req.InitiateSingle? || call.req.InitiateMultipart?
  {
  }

  lemma InsertStep(w: World, op: nat, tx: TxOutcome)
    requires Inv(w) && Enabled(w, Insert(op, tx))
    ensures Inv(Apply(w, Insert(op, tx))) && Extends(w, Apply(w, Insert(op, tx)))
  {
    hide Drafted;
    hide HistoryOk;
    hide OutboxOk;
    hide TablesOk;
    hide KeysUnique;
    var Op(call, pc) := w.ops[op];
    assert OpOk(w, w.ops[op]);
    var w' := Apply(w, Insert(op, tx));
    if CanInsert(w, pc.v) && tx != RolledBack {
      InsertKeepsTables(w, call, pc.v);
      var w1 := InsertRow(w, call, pc.v);
      SameTablesOk(w1, w');
      DraftedByInitiate(call, pc.v);
      SnapshotStays(w1, w', pc.v);
      assert OpOk(w', w'.ops[op]);
    } else {
      SameTablesOk(w, w');
    }
    OtherOpsStayOk(w, w', op);
  }

  lemma SameTablesOk(w: World, w': World)
    requires TablesOk(w) && KeysUnique(w) && OutboxOk(w)
    requires w'.rows == w.rows && w'.outbox == w.outbox && w'.history == w.history
    ensures TablesOk(w') && KeysUnique(w') && OutboxOk(w')
  {
    hide HistoryOk;
    SameOutboxOk(w, w');
  }

  lemma PlanAccounts(call: Call, base: Metadata, info: Option<ObjectInfo>, v: Metadata, seen: nat, row: Metadata)
    requires Planned(call, base, info, v.updatedAt) == Some(v)
    requires row.status == v.status && row.scan == v.scan
    ensures Accounts(Commit(call, info, seen, row))
  {
  }

  lemma PlanKeepsStatusOk(call: Call, base: Metadata, info: Option<ObjectInfo>, v: Metadata)
    requires Planned(call, base, info, v.updatedAt) == Some(v)
    requires StatusOk(base) && base.version >= 1 && CasVersion(call, base) >= 1
    ensures StatusOk(v.(version := CasVersion(call, base) + 1))
  {
  }

  /** The only ways to a ready row are a completion, and a scan report on a ready row. */
  lemma WaysToReady(call: Call, v: Metadata, info: Option<ObjectInfo>, now: int)
    requires Planned(call, v, info, now).Some? && Planned(call, v, info, now).value.status == Ready
    ensures Completing(call) || v.status == Ready
  {
  }

  /** The row an update leaves is the local copy with its version moved on. */
  lemma UpdatedRow(w: World, call: Call, base: Metadata, v: Metadata, expected: int, info: Option<ObjectInfo>)
    requires TablesOk(w) && CanUpdate(w, v, expected)
    requires Staged(w, call, base, v, expected, info)
    ensures DbUpdate(w.rows[v.id], v) == v.(version := expected + 1)
    ensures base.id == v.id && base.version == v.version && Facts(v) == Facts(base)
    ensures |w.history[v.id]| == expected && Facts(base) == w.history[v.id][0].row
    ensures StatusOk(v.(version := expected + 1))
  {
    hide Planned;
    hide Drafted;
    hide Derived;
    hide Facts;
    hide DbUpdate;
    hide StatusOk;
    PlanKeepsFacts(call, base, info, v.updatedAt);
    SameIdByFacts(base, v);
    RowIsSnapshot(w, v.id);
    var h := w.history[v.id];
    assert HistoryOk(v.id, h);
    assert Facts(h[|h| - 1].row) == h[0].row && Facts(h[base.version - 1].row) == h[0].row;
    assert StatusOk(h[base.version - 1].row);
    UpdateFromSnapshot(w.rows[v.id], v);
    PlanKeepsStatusOk(call, base, info, v);
  }

  lemma LastIsDerived(w: World, call: Call, base: Metadata, v: Metadata, expected: int, info: Option<ObjectInfo>)
    requires TablesOk(w) && CanUpdate(w, v, expected)
    requires Staged(w, call, base, v, expected, info)
    requires |w.history[v.id]| == expected && base.id == v.id && base.version == v.version
    ensures Derived(w.history[v.id] + [Commit(call, info, base.version, v.(version := expected + 1))], expected)
  {
    hide Planned;
    hide HistoryOk;
    hide TablesOk;
    hide Accounts;
    hide MultipartOpen;
    hide Acceptable;
    assert call.req.CompleteMultipart? ==> CasVersion(call, base) == call.req.expected && base.id == call.req.target.id;
    hide CasVersion;
    hide Names;
    hide CanUpdate;
    var row := v.(version := expected + 1);
    assert row.(version := base.version) == v;
    PlanAccounts(call, base, info, v, base.version, row);
  }

  lemma UpdatedHistoryOk(w: World, call: Call, base: Metadata, v: Metadata, expected: int, info: Option<ObjectInfo>)
    requires TablesOk(w) && CanUpdate(w, v, expected)
    requires Staged(w, call, base, v, expected, info)
    ensures var row := DbUpdate(w.rows[v.id], v);
            && row == v.(version := expected + 1)
            && HistoryOk(v.id, Past(w, v.id) + [Commit(call, info, base.version, row)])
  {
    UpdatedRow(w, call, base, v, expected, info);
    LastIsDerived(w, call, base, v, expected, info);
    FactsIgnoreVersion(v, expected + 1);
    assert HistoryOk(v.id, w.history[v.id]);
    hide HistoryOk;
    hide Derived;
    hide Staged;
    hide TablesOk;
    hide Facts;
    hide DbUpdate;
    hide StatusOk;
    LongerHistoryOk(v.id, w.history[v.id], Commit(call, info, base.version, v.(version := expected + 1)));
  }

  lemma LongerHistoryOk(id: string, h: seq<Commit>, c: Commit)
    requires HistoryOk(id, h) && Derived(h + [c], |h|)
    requires c.row.version == |h| + 1 && Facts(c.row) == h[0].row && StatusOk(c.row)
    ensures HistoryOk(id, h + [c])
  {
    hide Drafted;
    hide Planned;
    hide Facts;
    hide StatusOk;
    hide Accounts;
    hide Names;
    var h' := h + [c];
    forall k | 0 < k < |h'| ensures Derived(h', k) {
      if k < |h| {
        assert Derived(h, k);
        assert h'[k] == h[k] && h'[k - 1] == h[k - 1] && h'[h[k].seen - 1] == h[h[k].seen - 1];
      }
    }
  }

  lemma SameIdByFacts(a: Metadata, b: Metadata)
    requires Facts(a) == Facts(b)
    ensures a.id == b.id && a.tenant == b.tenant && a.application == b.application
            && a.idempotencyKey == b.idempotencyKey && a.objectKey == b.objectKey
            && a.size == b.size && a.checksum == b.checksum && a.mode == b.mode && a.uploadId == b.uploadId
  {
    assert Facts(a).id == Facts(b).id;
  }

  lemma SnapshotOf(w: World, id: string, k: int)
    requires TablesOk(w) && id in w.history && 0 <= k < |w.history[id]|
    ensures id in w.rows && Snapshot(w, w.history[id][k].row) && w.history[id][k].row.id == id
  {
    var h := w.history[id];
    assert HistoryOk(id, h);
    assert Facts(h[k].row).id == h[k].row.id;
  }

  /** A row has the facts of its first version. */
  lemma CurrentFacts(w: World, id: string)
    requires TablesOk(w) && id in w.rows
    ensures id in w.history && w.history[id] != [] && Facts(w.rows[id]) == w.history[id][0].row
  {
    hide Facts;
    RowIsSnapshot(w, id);
    var h := w.history[id];
    assert HistoryOk(id, h);
    assert Facts(h[|h| - 1].row) == h[0].row;
  }

  /** So does every earlier version of it. */
  lemma SnapshotFacts(w: World, v: Metadata)
    requires TablesOk(w) && Snapshot(w, v)
    ensures v.id in w.rows && Facts(w.rows[v.id]) == Facts(v)
    ensures w.rows[v.id].mode == v.mode && w.rows[v.id].uploadId == v.uploadId
  {
    hide Facts;
    CurrentFacts(w, v.id);
    var h := w.history[v.id];
    assert HistoryOk(v.id, h);
    assert Facts(h[v.version - 1].row) == h[0].row;
    SameIdByFacts(w.rows[v.id], v);
  }

  lemma FactsIgnoreVersion(v: Metadata, version: int)
    ensures Facts(v.(version := version)) == Facts(v)
  {
  }

  lemma UpdateKeepsTables(w: World, call: Call, base: Metadata, v: Metadata, expected: int, info: Option<ObjectInfo>)
    requires TablesOk(w) && KeysUnique(w) && OutboxOk(w) && CanUpdate(w, v, expected)
    requires Staged(w, call, base, v, expected, info)
    ensures var w' := UpdateRow(w, call, base, v, expected, info);
            TablesOk(w') && KeysUnique(w') && OutboxOk(w') && Extends(w, w') && Snapshot(w', v.(version := expected + 1))
  {
    hide Facts;
    hide StatusOk;
    hide HistoryOk;
    hide OutboxOk;
    hide KeysUnique;
    UpdatedRow(w, call, base, v, expected, info);
    UpdatedHistoryOk(w, call, base, v, expected, info);
    assert base.version >= 1;
    hide Staged;
    SameFactsSameKey(w, v);
    hide DbUpdate;
    hide SameKey;
    hide TablesOk;
    hide Extends;
    hide Snapshot;
    var w' := UpdateRow(w, call, base, v, expected, info);
    var c := Commit(call, info, base.version, DbUpdate(w.rows[v.id], v));
    AppendKeepsTablesOk(w, w', v.id, c);
    AppendKeepsOutbox(w, w', v.id, c);
    KeysStayUnique(w, w', v.id);
  }

  lemma AppendKeepsTablesOk(w: World, w': World, id: string, c: Commit)
    requires TablesOk(w) && id in w.rows && c.row.id == id && c.row.version == |w.history[id]| + 1
    requires w'.rows == w.rows[id := c.row] && w'.history == w.history[id := Past(w, id) + [c]]
    requires HistoryOk(id, Past(w, id) + [c])
    ensures TablesOk(w') && Extends(w, w') && Snapshot(w', c.row)
  {
    hide HistoryOk;
  }

  lemma SameFactsSameKey(w: World, v: Metadata)
    requires v.id in w.rows
    ensures SameKey(DbUpdate(w.rows[v.id], v), w.rows[v.id])
  {
  }

  lemma KeysStayUnique(w: World, w': World, id: string)
    requires KeysUnique(w) && id in w.rows
    requires w'.rows.Keys == w.rows.Keys && forall i :: i in w.rows && i != id ==> w'.rows[i] == w.rows[i]
    requires SameKey(w'.rows[id], w.rows[id])
    ensures KeysUnique(w')
  {
    forall i, j | i in w'.rows && j in w'.rows && SameKey(w'.rows[i], w'.rows[j]) ensures i == j {
      assert SameKey(w.rows[i], w.rows[j]);
    }
  }

  lemma UpdateStep(w: World, op: nat, tx: TxOutcome)
    requires Inv(w) && Enabled(w, Update(op, tx))
    ensures Inv(Apply(w, Update(op, tx))) && Extends(w, Apply(w, Update(op, tx)))
  {
    hide HistoryOk;
    hide OutboxOk;
    hide TablesOk;
    hide KeysUnique;
    var Op(call, ToUpdate(base, v, expected, info)) := w.ops[op];
    UpdatingIsStaged(w, op);
    hide OpsOk;
    var w' := Apply(w, Update(op, tx));
    if Applies(w, op, tx) {
      UpdateKeepsTables(w, call, base, v, expected, info);
      SameTablesOk(UpdateRow(w, call, base, v, expected, info), w');
      UpdatedOpOk(w, op, tx);
    } else {
      SameTablesOk(w, w');
    }
    hide OpOk;
    hide Staged;
    OtherOpsStayOk(w, w', op);
  }

  lemma UpdatedOpOk(w: World, op: nat, tx: TxOutcome)
    requires Enabled(w, Update(op, tx)) && Applies(w, op, tx)
    requires var Op(call, ToUpdate(base, v, expected, info)) := w.ops[op];
             Staged(w, call, base, v, expected, info)
             && Snapshot(UpdateRow(w, call, base, v, expected, info), v.(version := expected + 1))
    ensures OpOk(Apply(w, Update(op, tx)), Apply(w, Update(op, tx)).ops[op])
  {
    var Op(call, ToUpdate(base, v, expected, info)) := w.ops[op];
    if call.req.Delete? && v.status == Deleting {
      MarkedCanBeRemoved(call, base, v, expected, info);
    }
    hide Staged;
    hide Plannable;
    hide Names;
    hide DbUpdate;
  }

  lemma MarkedCanBeRemoved(call: Call, base: Metadata, v: Metadata, expected: int, info: Option<ObjectInfo>)
    requires call.req.Delete? && v.status == Deleting && Names(call, base)
    requires Planned(call, base, info, v.updatedAt) == Some(v)
    ensures Names(call, v.(version := expected + 1)) && Plannable(call, v.(version := expected + 1))
  {
  }

  /** Any step, from any state that satisfies the invariant. */
  lemma StepKeepsInv(w: World, l: Label)
    requires Inv(w) && Enabled(w, l)
    ensures Inv(Apply(w, l)) && Extends(w, Apply(w, l))
  {
    hide Inv;
    hide Apply;
    hide Extends;
    match l
    case Begin(op, call) => BeginStep(w, op, call);
    case Read(_, _, _, _, _) => ReadStep(w, l);
    case Insert(op, tx) => InsertStep(w, op, tx);
    case Update(op, tx) => UpdateStep(w, op, tx);
    case Put(id) => PutStep(w, id);
    case _ => StoreStep(w, l);
  }

  lemma InvTables(w: World)
    requires Inv(w)
    ensures TablesOk(w)
  {
  }

  lemma InvOps(w: World)
    requires Inv(w)
    ensures OpsOk(w)
  {
  }

  lemma EmptyInv()
    ensures Inv(EMPTY)
  {
  }

  lemma {:induction false} RunKeepsInv(w: World, run: seq<Label>)
    requires Inv(w) && IsRun(w, run)
    ensures Inv(After(w, run)) && Extends(w, After(w, run))
    decreases |run|
  {
    hide Inv;
    hide Apply;
    hide Enabled;
    if run != [] {
      StepKeepsInv(w, run[0]);
      RunKeepsInv(Apply(w, run[0]), run[1..]);
    }
  }

  lemma OthersUntouched(w: World, l: Label)
    requires Enabled(w, l)
    ensures forall p :: p in Apply(w, l).ops && (l.Put? || p != l.op) ==> p in w.ops && Apply(w, l).ops[p] == w.ops[p]
  {
    hide AfterRead;
    hide AfterStat;
    hide AfterRelease;
    hide DbUpdate;
    hide CanInsert;
    hide CanUpdate;
  }

  /** Once begun, a call stays the same call. */
  lemma CallsKeepTheirRequest(w: World, l: Label)
    requires Enabled(w, l) && !l.Put? && !l.Crash?
    ensures l.op in Apply(w, l).ops
    ensures l.Begin? ==> Apply(w, l).ops[l.op] == Op(l.call, Start)
    ensures !l.Begin? ==> l.op in w.ops && Apply(w, l).ops[l.op].call == w.ops[l.op].call
  {
    hide AfterRead;
    hide AfterStat;
    hide AfterRelease;
    hide DbUpdate;
    hide CanInsert;
    hide CanUpdate;
  }

  /** Only a crash makes a call disappear. */
  lemma CallsStay(w: World, l: Label)
    requires Enabled(w, l)
    ensures forall p :: p in w.ops && !(l.Crash? && p == l.op) ==> p in Apply(w, l).ops
  {
    hide AfterRead;
    hide AfterStat;
    hide AfterRelease;
    hide DbUpdate;
    hide CanInsert;
    hide CanUpdate;
  }

  lemma UpdateHistory(w: World, op: nat, tx: TxOutcome)
    requires Enabled(w, Update(op, tx)) && Applies(w, op, tx)
    ensures var w' := Apply(w, Update(op, tx));
            var Op(call, ToUpdate(base, v, expected, info)) := w.ops[op];
            && op in w'.ops && w'.ops[op].call == call
            && w'.history == w.history[v.id := Past(w, v.id) +
                 [Commit(call, info, if base.version < 0 then 0 else base.version, DbUpdate(w.rows[v.id], v))]]
            && (w'.ops[op].pc.ToRemove? ==> v.status == Deleting)
            && (w'.ops[op].pc.Returned? && w'.ops[op].pc.response.Row? && call.req.Delete? ==> v.status != Deleting)
            && DbUpdate(w.rows[v.id], v).status == v.status
  {
  }

  lemma TablesMoveOnlyBy(w: World, l: Label)
    requires Enabled(w, l) && !l.Insert? && !l.Update?
    ensures Apply(w, l).rows == w.rows && Apply(w, l).history == w.history && Apply(w, l).log == w.log
            && Apply(w, l).outbox == w.outbox
  {
    hide AfterRead;
    hide AfterStat;
    hide AfterRelease;
  }

  lemma BeginAtStart(w: World, op: nat, call: Call)
    requires Enabled(w, Begin(op, call))
    ensures Apply(w, Begin(op, call)).ops == w.ops[op := Op(call, Start)]
  {
  }

  lemma ReadMoves(w: World, l: Label)
    requires l.Read? && Enabled(w, l)
    ensures l.op in Apply(w, l).ops
    ensures Apply(w, l).ops[l.op] == Op(w.ops[l.op].call, AfterRead(w.rows, w.ops[l.op], l.grant, l.dbOk, l.id, l.now))
  {
    hide AfterRead;
  }
}
