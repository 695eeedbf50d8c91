/** Rows and objects in serial runs: with calls one after the other, crashing and failing
    anywhere, a ready row has its object. */
module Agreement {
  import opened Basics
  import opened Completion
  import opened ObjectKeys
  import opened Model
  import opened Protocol
  import opened Invariants
  import opened History
  import opened Serializability

  /** The object has the size the row declares and, if it carries a checksum, that too. */
  predicate Fits(info: ObjectInfo, v: Metadata) {
    info.size == v.size && (info.checksum == "" || info.checksum == v.checksum)
  }

  /** The object of the row is stored, with the declared size and, if any, checksum. */
  predicate Stored(objects: map<string, ObjectInfo>, v: Metadata) {
    v.objectKey in objects && Fits(objects[v.objectKey], v)
  }

  ghost predicate RowsAgree(w: World) {
    forall id :: id in w.rows && w.rows[id].status == Ready ==> Stored(w.objects, w.rows[id])
  }

  /** A completion about to commit has seen the object that is there. */
  predicate Inspected(w: World, o: Op) {
    o.pc.ToUpdate? && Completing(o.call) ==> Stored(w.objects, o.pc.v)
  }

  ghost predicate Agree(w: World) {
    RowsAgree(w) && forall op :: op in w.ops ==> Inspected(w, w.ops[op])
  }

  lemma DraftedKey(call: Call, v: Metadata)
    requires Drafted(call, v)
    ensures IsUuid(v.id) && (call.req.InitiateSingle? || call.req.InitiateMultipart?)
    ensures v.objectKey == ObjectKey(v.tenant, v.application, v.id, CleanFilename(call.req.upload.filename))
  {
    assert v.(uploadId := "").objectKey == v.objectKey;
  }

  /** Two files never share an object. */
  lemma OwnKeys(w: World, i: string, j: string)
    requires TablesOk(w) && i in w.rows && j in w.rows && w.rows[i].objectKey == w.rows[j].objectKey
    ensures i == j
  {
    hide Drafted;
    RowKey(w, i);
    RowKey(w, j);
    var a, b := w.history[i][0], w.history[j][0];
    DistinctFilesDistinctKeys(a.row.tenant, a.row.application, i, a.call.req.upload.filename,
                              b.row.tenant, b.row.application, j, b.call.req.upload.filename);
  }

  lemma RowKey(w: World, i: string)
    requires TablesOk(w) && i in w.rows
    ensures i in w.history && w.history[i] != [] && Drafted(w.history[i][0].call, w.history[i][0].row)
    ensures IsUuid(i) && (w.history[i][0].call.req.InitiateSingle? || w.history[i][0].call.req.InitiateMultipart?)
    ensures var c := w.history[i][0];
            w.rows[i].objectKey == ObjectKey(c.row.tenant, c.row.application, i, CleanFilename(c.call.req.upload.filename))
  {
    hide Facts;
    hide Derived;
    hide StatusOk;
    hide Drafted;
    hide ObjectKey;
    RowIsSnapshot(w, i);
    var h := w.history[i];
    assert HistoryOk(i, h);
    assert Facts(h[|h| - 1].row) == h[0].row;
    assert Facts(h[0].row) == h[0].row;
    SameIdByFacts(h[|h| - 1].row, h[0].row);
    DraftedKey(h[0].call, h[0].row);
  }

  lemma StoredByFacts(objects: map<string, ObjectInfo>, a: Metadata, b: Metadata)
    requires Facts(a) == Facts(b)
    ensures Stored(objects, a) <==> Stored(objects, b)
  {
    hide Facts;
    SameIdByFacts(a, b);
  }

  /** The row a waiting completion works on. */
  lemma WaitingRow(w: World, op: nat)
    requires TablesOk(w) && OpsOk(w) && Solo(w) && op in w.ops && w.ops[op].pc.ToUpdate?
    ensures var v := w.ops[op].pc.v; v.id in w.rows && Facts(w.rows[v.id]) == Facts(v) && w.rows[v.id].objectKey == v.objectKey
    ensures w.ops[op].pc.base == w.rows[w.ops[op].pc.v.id]
  {
    hide TablesOk;
    hide Facts;
    UpdatingIsStaged(w, op);
    var Op(call, ToUpdate(base, v, expected, info)) := w.ops[op];
    assert Current(w, w.ops[op]);
    PlanKeepsFacts(call, base, info, v.updatedAt);
    SameIdByFacts(base, v);
  }

  /** Writing or removing the object of one file leaves every other file's object alone. */
  lemma OtherObjectsStay(w: World, w': World, id: string)
    requires Inv(w) && Agree(w) && Solo(w) && id in w.rows
    requires w'.rows == w.rows
    requires forall k :: k != w.rows[id].objectKey ==>
      (k in w'.objects <==> k in w.objects) && (k in w.objects ==> w'.objects[k] == w.objects[k])
    ensures forall i :: i in w'.rows && i != id && w'.rows[i].status == Ready ==> Stored(w'.objects, w'.rows[i])
    ensures forall op :: op in w.ops && w.ops[op].pc.ToUpdate? && w.ops[op].pc.v.id != id ==> Inspected(w', w.ops[op])
  {
    hide TablesOk;
    hide OutboxOk;
    hide KeysUnique;
    hide OpsOk;
    hide Solo;
    hide Facts;
    forall i | i in w'.rows && i != id && w'.rows[i].status == Ready ensures Stored(w'.objects, w'.rows[i]) {
      if w.rows[i].objectKey == w.rows[id].objectKey {
        OwnKeys(w, i, id);
      }
    }
    forall op | op in w.ops && w.ops[op].pc.ToUpdate? && w.ops[op].pc.v.id != id ensures Inspected(w', w.ops[op]) {
      WaitingRow(w, op);
      var v := w.ops[op].pc.v;
      if v.objectKey == w.rows[id].objectKey {
        OwnKeys(w, v.id, id);
      }
    }
  }

  lemma PutAgrees(w: World, id: string)
    requires Inv(w) && Agree(w) && Solo(w) && Enabled(w, Put(id))
    ensures Agree(Apply(w, Put(id)))
  {
    hide Solo;
    hide TablesOk;
    hide OutboxOk;
    hide KeysUnique;
    hide OpsOk;
    hide Stored;
    hide Facts;
    var w' := Apply(w, Put(id));
    OtherObjectsStay(w, w', id);
    PutStores(w.rows[id], w'.objects);
    forall op | op in w'.ops ensures Inspected(w', w'.ops[op]) {
      if w.ops[op].pc.ToUpdate? && w.ops[op].pc.v.id == id {
        WaitingRow(w, op);
        StoredByFacts(w'.objects, w.rows[id], w.ops[op].pc.v);
      }
    }
  }

  lemma PutStores(v: Metadata, objects: map<string, ObjectInfo>)
    requires v.objectKey in objects && objects[v.objectKey] == ObjectInfo(v.size, v.checksum)
    ensures Stored(objects, v)
  {
  }

  /** Steps that leave rows and objects alone. */
  lemma UnmovedAgree(w: World, w': World, op: nat)
    requires Agree(w) && w'.rows == w.rows && w'.objects == w.objects
    requires forall p :: p in w'.ops && p != op ==> p in w.ops && w'.ops[p] == w.ops[p]
    requires op in w'.ops ==> Inspected(w', w'.ops[op])
    ensures Agree(w')
  {
    hide Stored;
  }

  lemma StatInspects(call: Call, v: Metadata, objects: map<string, ObjectInfo>, ok: bool, now: int)
    requires AfterStat(call, v, objects, ok, now).ToUpdate? && Completing(call)
    ensures Stored(objects, AfterStat(call, v, objects, ok, now).v)
  {
  }

  predicate LeavesStore(l: Label) {
    l.Begin? || l.Read? || l.OpenSession? || l.Undo? || l.Stat? || l.AbortSession? || l.Sign? || l.Crash?
  }

  lemma LeavesRowsAndObjects(w: World, l: Label)
    requires Enabled(w, l) && LeavesStore(l)
    ensures Apply(w, l).rows == w.rows && Apply(w, l).objects == w.objects
  {
    hide AfterRead;
    hide AfterStat;
    hide AfterRelease;
  }

  lemma QuietStepInspects(w: World, l: Label)
    requires OpsOk(w) && Enabled(w, l) && LeavesStore(l) && l.op in Apply(w, l).ops
    ensures Inspected(Apply(w, l), Apply(w, l).ops[l.op])
  {
    hide Draft;
    hide Admission;
    hide Planned;
    hide KeyTaken;
    hide AfterStat;
    hide Acceptable;
    hide Stored;
    hide Snapshot;
    hide Drafted;
    hide Staged;
    hide Names;
    if l.Stat? {
      var o := w.ops[l.op];
      if AfterStat(o.call, o.pc.v, w.objects, l.ok, l.now).ToUpdate? && Completing(o.call) {
        StatInspects(o.call, o.pc.v, w.objects, l.ok, l.now);
      }
    } else if l.op in w.ops {
      assert OpOk(w, w.ops[l.op]);
    }
  }

  lemma QuietStepAgrees(w: World, l: Label)
    requires Inv(w) && Agree(w) && Enabled(w, l) && LeavesStore(l)
    ensures Agree(Apply(w, l))
  {
    hide Apply;
    hide Agree;
    hide TablesOk;
    hide OutboxOk;
    hide KeysUnique;
    hide OpsOk;
    hide Inspected;
    OthersUntouched(w, l);
    LeavesRowsAndObjects(w, l);
    if l.op in Apply(w, l).ops {
      QuietStepInspects(w, l);
    }
    UnmovedAgree(w, Apply(w, l), l.op);
  }

  /** An update makes a row ready only over an object that is there. */
  lemma UpdateAgrees(w: World, op: nat, tx: TxOutcome)
    requires Inv(w) && Agree(w) && Solo(w) && Enabled(w, Update(op, tx))
    ensures Agree(Apply(w, Update(op, tx)))
  {
    hide OutboxOk;
    hide KeysUnique;
    hide DbUpdate;
    hide Facts;
    hide TablesOk;
    hide OpOk;
    hide OpsOk;
    hide Solo;
    hide Staged;
    hide StatusOk;
    hide Stored;
    hide Apply;
    UpdateMoves(w, op, tx);
    UpdatingIsStaged(w, op);
    OthersUntouched(w, Update(op, tx));
    var Op(call, ToUpdate(base, v, expected, info)) := w.ops[op];
    if Applies(w, op, tx) {
      UpdatedRow(w, call, base, v, expected, info);
      WaitingRow(w, op);
      if v.status == Ready {
        ReadyIsStored(w, call, base, v, expected, info);
        FactsIgnoreVersion(v, expected + 1);
        StoredByFacts(w.objects, v, v.(version := expected + 1));
      }
    }
  }

  lemma ReadyIsStored(w: World, call: Call, base: Metadata, v: Metadata, expected: int, info: Option<ObjectInfo>)
    requires Staged(w, call, base, v, expected, info) && v.status == Ready && RowsAgree(w)
    requires base.id in w.rows && base == w.rows[base.id]
    requires Completing(call) ==> Stored(w.objects, v)
    ensures Stored(w.objects, v)
  {
    PlanKeepsFacts(call, base, info, v.updatedAt);
    StoredByFacts(w.objects, base, v);
    WaysToReady(call, base, info, v.updatedAt);
  }

  lemma InsertAgrees(w: World, op: nat, tx: TxOutcome)
    requires OpsOk(w) && Agree(w) && Enabled(w, Insert(op, tx))
    ensures Agree(Apply(w, Insert(op, tx)))
  {
    hide KeyTaken;
    hide Drafted;
    hide Stored;
    hide OpOk;
    hide Project;
    InsertingIsDrafted(w, op);
    assert Facts(w.ops[op].pc.v).status == PendingUpload;
    OthersUntouched(w, Insert(op, tx));
  }

  /** The file whose object a call assembles or removes is not ready. */
  lemma TouchedRowIsNotReady(w: World, op: nat)
    requires OpsOk(w) && Solo(w) && op in w.ops && (w.ops[op].pc.ToRemove? || w.ops[op].pc.ToFinish?)
    ensures var v := w.ops[op].pc.v; v.id in w.rows && w.rows[v.id] == v && v.status != Ready
    ensures forall p :: p in w.ops && w.ops[p].pc.ToUpdate? ==> p == op
  {
    hide Snapshot;
    assert OpOk(w, w.ops[op]);
    assert Current(w, w.ops[op]);
    if w.ops[op].pc.ToRemove? {
      RemovableIsNotReady(w.ops[op].call, w.ops[op].pc.v);
    }
  }

  lemma RemovableIsNotReady(call: Call, v: Metadata)
    requires Plannable(call, v) && ((call.req.Delete? && v.status == Deleting) || call.req.Cleanup?)
    ensures v.status != Ready
  {
  }

  lemma ObjectStepAgrees(w: World, l: Label)
    requires Inv(w) && Agree(w) && Solo(w) && Enabled(w, l) && (l.Finish? || l.Remove?)
    ensures Agree(Apply(w, l))
  {
    hide TablesOk;
    hide OutboxOk;
    hide KeysUnique;
    hide OpsOk;
    hide Solo;
    hide Stored;
    hide Planned;
    TouchedRowIsNotReady(w, l.op);
    var w' := Apply(w, l);
    OthersUntouched(w, l);
    OtherObjectsStay(w, w', w.ops[l.op].pc.v.id);
    ReleasedCallIsNoCompletion(w, l);
    forall p | p in w'.ops ensures Inspected(w', w'.ops[p]) {
    }
  }

  lemma ReleasedCallIsNoCompletion(w: World, l: Label)
    requires OpsOk(w) && Enabled(w, l) && (l.Finish? || l.Remove?)
    ensures l.op in Apply(w, l).ops && !(Apply(w, l).ops[l.op].pc.ToUpdate? && Completing(Apply(w, l).ops[l.op].call))
  {
    hide Planned;
    hide Snapshot;
    assert OpOk(w, w.ops[l.op]);
  }

  lemma StepAgrees(w: World, l: Label)
    requires Inv(w) && Agree(w) && Solo(w) && Enabled(w, l)
    ensures Agree(Apply(w, l))
  {
    hide Apply;
    hide TablesOk;
    hide OutboxOk;
    hide KeysUnique;
    hide OpsOk;
    hide Agree;
    hide Solo;
    hide Enabled;
    match l
    case Put(id) => PutAgrees(w, id);
    case Update(op, tx) => UpdateAgrees(w, op, tx);
    case Insert(op, tx) => InsertAgrees(w, op, tx);
    case Finish(_, _, _, _) => ObjectStepAgrees(w, l);
    case Remove(_, _, _) => ObjectStepAgrees(w, l);
    case _ => QuietStepAgrees(w, l);
  }

  /** Row/object agreement in serial runs, with storage, commits and crashes failing anywhere
      and clients uploading at any moment. */
  lemma {:induction false} SerialRunsAgree(w: World, run: seq<Label>)
    requires Inv(w) && Agree(w) && Solo(w) && SerialRun(w, run)
    ensures IsRun(w, run) && Agree(After(w, run))
    decreases |run|
  {
    hide Inv;
    hide Agree;
    hide Solo;
    hide Quiet;
    hide Apply;
    hide Enabled;
    if run != [] {
      StepAgrees(w, run[0]);
      SoloKept(w, run[0]);
      StepKeepsInv(w, run[0]);
      SerialRunsAgree(Apply(w, run[0]), run[1..]);
    }
  }

  lemma ReadyRowsHaveTheirObject(run: seq<Label>, id: string)
    requires SerialRun(EMPTY, run) && IsRun(EMPTY, run) && id in After(EMPTY, run).rows
    ensures var w := After(EMPTY, run); w.rows[id].status == Ready ==> Stored(w.objects, w.rows[id])
  {
    hide Inv;
    EmptyInv();
    SerialRunsAgree(EMPTY, run);
  }

  // ---- All interleavings ----

  predicate IsReady(w: World, id: string) {
    id in w.rows && w.rows[id].status == Ready
  }

  /** The object that assembling the parts makes, if it makes one. */
  function Made(w: World, l: Label): Option<ObjectInfo>
    requires l.Finish? && l.op in w.ops && w.ops[l.op].pc.ToFinish?
  {
    var v := w.ops[l.op].pc.v;
    if l.outcome == NotDone || !IsOpen(w, v.uploadId) then None
    else Some(ObjectInfo(l.size, if l.keepsChecksum then w.sessions[v.uploadId].checksum else ""))
  }

  /** The step does not take the object from under a ready row, nor put a different one there,
      nor make a row ready over an object that is not there. */
  ghost predicate KeepsObjects(w: World, l: Label)
    requires Enabled(w, l)
  {
    match l
    case Remove(op, outcome, _) => outcome == NotDone || !IsReady(w, w.ops[op].pc.v.id)
    case Finish(op, _, _, _) =>
      var made := Made(w, l);
      made.None? || !IsReady(w, w.ops[op].pc.v.id) || Fits(made.value, w.ops[op].pc.v)
    case Update(op, tx) =>
      var v := w.ops[op].pc.v;
      !Applies(w, op, tx) || v.status != Ready || Stored(w.objects, v)
    case _ => true
  }

  lemma OneObjectChanged(w: World, w': World, id: string)
    requires TablesOk(w) && RowsAgree(w) && id in w.rows && w'.rows == w.rows
    requires forall k :: k != w.rows[id].objectKey ==>
      (k in w'.objects <==> k in w.objects) && (k in w.objects ==> w'.objects[k] == w.objects[k])
    ensures RowsAgree(w') <==> (IsReady(w, id) ==> Stored(w'.objects, w.rows[id]))
  {
    hide TablesOk;
    hide Fits;
    if IsReady(w, id) ==> Stored(w'.objects, w.rows[id]) {
      forall i | i in w'.rows && w'.rows[i].status == Ready ensures Stored(w'.objects, w'.rows[i]) {
        if i != id && w.rows[i].objectKey == w.rows[id].objectKey {
          OwnKeys(w, i, id);
        }
      }
    }
  }

  lemma OneRowChanged(w: World, w': World, id: string)
    requires RowsAgree(w) && id in w'.rows && w'.rows == w.rows[id := w'.rows[id]] && w'.objects == w.objects
    ensures RowsAgree(w') <==> (w'.rows[id].status == Ready ==> Stored(w.objects, w'.rows[id]))
  {
    hide Stored;
  }

  /** The row a call is about to assemble or remove the object of. */
  lemma TouchedRow(w: World, op: nat)
    requires Inv(w) && op in w.ops && (w.ops[op].pc.ToRemove? || w.ops[op].pc.ToFinish?)
    ensures var v := w.ops[op].pc.v; v.id in w.rows && Facts(w.rows[v.id]) == Facts(v)
  {
    hide TablesOk;
    hide Snapshot;
    hide Facts;
    assert OpOk(w, w.ops[op]);
    SnapshotFacts(w, w.ops[op].pc.v);
  }

  lemma RemoveAgreesExactlyWhen(w: World, op: nat, outcome: Outcome, now: int)
    requires Inv(w) && RowsAgree(w) && Enabled(w, Remove(op, outcome, now))
    ensures RowsAgree(Apply(w, Remove(op, outcome, now))) <==> KeepsObjects(w, Remove(op, outcome, now))
  {
    hide Apply;
    hide Inv;
    hide TablesOk;
    hide Facts;
    hide Fits;
    TouchedRow(w, op);
    InvTables(w);
    RemoveMoves(w, Remove(op, outcome, now));
    LeavesRows(w, Remove(op, outcome, now));
    var v := w.ops[op].pc.v;
    SameIdByFacts(w.rows[v.id], v);
    OneObjectChanged(w, Apply(w, Remove(op, outcome, now)), v.id);
  }

  lemma LeavesRows(w: World, l: Label)
    requires IsStoreStep(l) && Enabled(w, l)
    ensures Apply(w, l).rows == w.rows
  {
    hide Apply;
    hide StorePc;
    StoreStepIs(w, l);
  }

  lemma FinishMakes(w: World, l: Label)
    requires l.Finish? && Enabled(w, l)
    ensures Apply(w, l).rows == w.rows
    ensures var key := w.ops[l.op].pc.v.objectKey;
            match Made(w, l)
            case None => Apply(w, l).objects == w.objects
            case Some(info) => Apply(w, l).objects == w.objects[key := info]
  {
  }

  lemma FinishAgreesExactlyWhen(w: World, l: Label)
    requires Inv(w) && RowsAgree(w) && l.Finish? && Enabled(w, l)
    ensures RowsAgree(Apply(w, l)) <==> KeepsObjects(w, l)
  {
    hide Inv;
    hide Apply;
    hide Facts;
    hide TablesOk;
    hide Made;
    TouchedRow(w, l.op);
    InvTables(w);
    FinishMakes(w, l);
    var v := w.ops[l.op].pc.v;
    SameIdByFacts(w.rows[v.id], v);
    OneObjectChanged(w, Apply(w, l), v.id);
  }

  lemma UpdateAgreesExactlyWhen(w: World, op: nat, tx: TxOutcome)
    requires Inv(w) && RowsAgree(w) && Enabled(w, Update(op, tx))
    ensures RowsAgree(Apply(w, Update(op, tx))) <==> KeepsObjects(w, Update(op, tx))
  {
    hide Inv;
    hide Apply;
    hide Facts;
    hide Stored;
    hide DbUpdate;
    hide Staged;
    UpdateMoves(w, op, tx);
    InvTables(w);
    InvOps(w);
    hide TablesOk;
    var Op(call, ToUpdate(base, v, expected, info)) := w.ops[op];
    UpdatingIsStaged(w, op);
    if Applies(w, op, tx) {
      UpdatedRow(w, call, base, v, expected, info);
      FactsIgnoreVersion(v, expected + 1);
      StoredByFacts(w.objects, v, v.(version := expected + 1));
      OneRowChanged(w, Apply(w, Update(op, tx)), v.id);
    }
  }

  lemma InsertAgreesAlways(w: World, op: nat, tx: TxOutcome)
    requires Inv(w) && RowsAgree(w) && Enabled(w, Insert(op, tx))
    ensures RowsAgree(Apply(w, Insert(op, tx)))
  {
    hide Inv;
    hide KeyTaken;
    hide Drafted;
    hide Stored;
    hide Project;
    InvOps(w);
    InsertingIsDrafted(w, op);
    hide OpsOk;
    assert Facts(w.ops[op].pc.v).status == PendingUpload;
    if CanInsert(w, w.ops[op].pc.v) && tx != RolledBack {
      OneRowChanged(w, Apply(w, Insert(op, tx)), w.ops[op].pc.v.id);
    }
  }

  lemma PutMoves(w: World, id: string)
    requires Enabled(w, Put(id))
    ensures var w' := Apply(w, Put(id));
            w'.rows == w.rows && w'.objects == w.objects[w.rows[id].objectKey := ObjectInfo(w.rows[id].size, w.rows[id].checksum)]
  {
    hide AfterRead;
    hide AfterStat;
    hide AfterRelease;
    hide DoUpdate;
    hide DoInsert;
    hide DoFinish;
  }

  lemma PutAgreesAlways(w: World, id: string)
    requires Inv(w) && RowsAgree(w) && Enabled(w, Put(id))
    ensures RowsAgree(Apply(w, Put(id)))
  {
    hide Apply;
    hide Inv;
    hide TablesOk;
    InvTables(w);
    PutMoves(w, id);
    PutStores(w.rows[id], Apply(w, Put(id)).objects);
    hide Stored;
    OneObjectChanged(w, Apply(w, Put(id)), id);
  }

  /** In any interleaving, whatever versions callers expect: while every ready row has its
      object, the next step keeps that so if and only if it keeps objects in the sense above. */
  lemma StepAgreesExactlyWhen(w: World, l: Label)
    requires Reachable(w) && RowsAgree(w) && Enabled(w, l)
    ensures RowsAgree(Apply(w, l)) <==> KeepsObjects(w, l)
  {
    hide Reachable;
    hide Inv;
    hide Enabled;
    ReachableInv(w);
    hide Apply;
    match l
    case Remove(op, outcome, now) => RemoveAgreesExactlyWhen(w, op, outcome, now);
    case Finish(_, _, _, _) => FinishAgreesExactlyWhen(w, l);
    case Update(op, tx) => UpdateAgreesExactlyWhen(w, op, tx);
    case Insert(op, tx) => InsertAgreesAlways(w, op, tx);
    case Put(id) => PutAgreesAlways(w, id);
    case _ => LeavesRowsAndObjects(w, l);
  }

  /** Every ready row has its object all along the run. */
  ghost predicate AlwaysAgrees(w: World, run: seq<Label>)
    requires IsRun(w, run)
    decreases |run|
  {
    RowsAgree(w) && (run == [] || AlwaysAgrees(Apply(w, run[0]), run[1..]))
  }

  ghost predicate AllKeepObjects(w: World, run: seq<Label>)
    requires IsRun(w, run)
    decreases |run|
  {
    run == [] || (KeepsObjects(w, run[0]) && AllKeepObjects(Apply(w, run[0]), run[1..]))
  }

  /** A run keeps ready rows and objects in agreement exactly when each of its steps does. */
  lemma {:induction false} RunAgreesExactlyWhen(w: World, run: seq<Label>)
    requires Reachable(w) && RowsAgree(w) && IsRun(w, run)
    ensures AlwaysAgrees(w, run) <==> AllKeepObjects(w, run)
    decreases |run|
  {
    hide Reachable;
    hide RowsAgree;
    hide KeepsObjects;
    hide Apply;
    hide Enabled;
    if run != [] {
      StepAgreesExactlyWhen(w, run[0]);
      if KeepsObjects(w, run[0]) {
        ReachableStep(w, run[0]);
        RunAgreesExactlyWhen(Apply(w, run[0]), run[1..]);
      } else {
        NotAgreeing(Apply(w, run[0]), run[1..]);
      }
    }
  }

  lemma NotAgreeing(w: World, run: seq<Label>)
    requires IsRun(w, run) && !RowsAgree(w)
    ensures !AlwaysAgrees(w, run)
  {
    hide RowsAgree;
  }
}
