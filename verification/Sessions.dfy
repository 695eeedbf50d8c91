/** Multipart sessions: who owns an open one, and when it is closed. */
module Sessions {
  import opened Basics
  import opened Completion
  import opened Model
  import opened Protocol
  import opened Invariants
  import opened History

  predicate Records(v: Metadata, s: string) {
    v.mode == Multipart && v.uploadId == s
  }

  /** The call has opened session `s` and not yet inserted its row or aborted it. */
  predicate Holds(o: Op, s: string) {
    (o.pc.ToInsert? || o.pc.ToUndo?) && Records(o.pc.v, s)
  }

  /** Every session of a call or row exists, and belongs to one call or one row; a call that
      failed to insert may share it only with the row of its own file. */
  ghost predicate Registered(w: World) {
    Known(w) && OneRowEach(w) && OneHolderEach(w) && HolderOrRow(w)
  }

  ghost predicate Known(w: World) {
    && (forall i :: i in w.rows && w.rows[i].mode == Multipart ==> w.rows[i].uploadId in w.sessions)
    && (forall p, s :: p in w.ops && Holds(w.ops[p], s) ==> s in w.sessions)
  }

  ghost predicate OneRowEach(w: World) {
    forall i, j, s :: i in w.rows && j in w.rows && Records(w.rows[i], s) && Records(w.rows[j], s) ==> i == j
  }

  ghost predicate OneHolderEach(w: World) {
    forall p, q, s :: p in w.ops && q in w.ops && Holds(w.ops[p], s) && Holds(w.ops[q], s) ==> p == q
  }

  ghost predicate HolderOrRow(w: World) {
    forall p, i, s :: p in w.ops && i in w.rows && Holds(w.ops[p], s) && Records(w.rows[i], s) ==>
      w.ops[p].pc.ToUndo? && w.ops[p].pc.v.id == i
  }

  /** A release by abort or cleanup reaches its commit only with the session closed. */
  ghost predicate Released(w: World) {
    && (forall p :: p in w.ops && Releasing(w.ops[p]) ==>
          w.ops[p].pc.base.uploadId in w.sessions && !IsOpen(w, w.ops[p].pc.base.uploadId))
    && (forall i, k :: i in w.history && 0 <= k < |w.history[i]| && GaveUp(w.history[i][k]) ==>
          !IsOpen(w, w.history[i][k].row.uploadId))
  }

  /** The commit of an abort, or of the cleanup of a multipart upload. */
  predicate GaveUp(c: Commit) {
    c.row.mode == Multipart && (c.call.req.Abort? || c.call.req.Cleanup?)
  }

  predicate Releasing(o: Op) {
    o.pc.ToUpdate? && o.pc.base.mode == Multipart && (o.call.req.Cleanup? || o.call.req.Abort?)
  }

  /** No open session is forgotten. */
  ghost predicate Owned(w: World) {
    forall s :: IsOpen(w, s) ==> HasOwner(w, s)
  }

  ghost predicate HasOwner(w: World, s: string) {
    (exists p :: p in w.ops && Holds(w.ops[p], s)) || (exists i :: i in w.rows && Records(w.rows[i], s))
  }

  /** Sessions only close. */
  ghost predicate OnlyCloses(w: World, w': World) {
    w'.sessions.Keys == w.sessions.Keys && forall s :: IsOpen(w', s) ==> IsOpen(w, s)
  }

  /** Rows stay with their sessions. */
  ghost predicate SameRecords(w: World, w': World) {
    && w'.rows.Keys == w.rows.Keys
    && forall i :: i in w.rows ==> w'.rows[i].mode == w.rows[i].mode && w'.rows[i].uploadId == w.rows[i].uploadId
  }

  lemma UnmovedRecordsStayRegistered(w: World, w': World)
    requires Registered(w) && SameRecords(w, w') && OnlyCloses(w, w')
    requires forall p, s :: p in w'.ops && Holds(w'.ops[p], s) ==> p in w.ops && w'.ops[p] == w.ops[p]
    ensures Registered(w')
  {
    assert forall i, s :: i in w'.rows && Records(w'.rows[i], s) ==> Records(w.rows[i], s);
  }

  lemma OpenRegisters(w: World, l: Label)
    requires Registered(w) && l.OpenSession? && Enabled(w, l)
    ensures Registered(Apply(w, l))
  {
    hide Registered;
    var w' := Apply(w, l);
    var v := w.ops[l.op].pc.v;
    if l.outcome == NotDone {
      RegisteredWithout(w, w', l.op);
    } else {
      RegisteredWithFresh(w, w', l.op, l.uploadId);
    }
  }

  lemma RegisteredWithout(w: World, w': World, op: nat)
    requires Registered(w) && w'.rows == w.rows && w'.sessions.Keys >= w.sessions.Keys
    requires op in w'.ops && (w'.ops[op].pc.Returned? || w'.ops[op].pc.ToSign?)
    requires forall p :: p in w'.ops && p != op ==> p in w.ops && w'.ops[p] == w.ops[p]
    ensures Registered(w')
  {
  }

  lemma RegisteredWithFresh(w: World, w': World, op: nat, s: string)
    requires Registered(w) && w'.rows == w.rows && w'.sessions.Keys == w.sessions.Keys + {s} && s !in w.sessions
    requires op in w'.ops && (w'.ops[op].pc.Returned? || (w'.ops[op].pc.ToInsert? && w'.ops[op].pc.v.uploadId == s))
    requires forall p :: p in w'.ops && p != op ==> p in w.ops && w'.ops[p] == w.ops[p]
    ensures Registered(w')
  {
    forall p, i, t | p in w'.ops && i in w'.rows && Holds(w'.ops[p], t) && Records(w'.rows[i], t)
      ensures w'.ops[p].pc.ToUndo? && w'.ops[p].pc.v.id == i
    {
      assert w.rows[i].uploadId in w.sessions;
    }
  }

  lemma InsertRegisters(w: World, op: nat, tx: TxOutcome)
    requires Registered(w) && Enabled(w, Insert(op, tx))
    ensures Registered(Apply(w, Insert(op, tx)))
  {
    hide KeyTaken;
    hide Registered;
    hide Project;
    var w' := Apply(w, Insert(op, tx));
    var v := w.ops[op].pc.v;
    if CanInsert(w, v) && tx != RolledBack {
      RegisteredWithRow(w, w', op, v);
    } else if v.mode == Single {
      RegisteredWithout(w, w', op);
    } else {
      RegisteredForUndo(w, w', op, v);
    }
  }

  /** The holder hands its session to its row, and may keep it to undo. */
  lemma RegisteredWithRow(w: World, w': World, op: nat, v: Metadata)
    requires Registered(w) && op in w.ops && w.ops[op].pc == ToInsert(v) && v.id !in w.rows
    requires w'.rows == w.rows[v.id := v] && w'.sessions == w.sessions && op in w'.ops
    requires w'.ops[op].pc.Returned? || w'.ops[op].pc.ToSign? || w'.ops[op].pc == ToUndo(v)
    requires forall p :: p in w'.ops && p != op ==> p in w.ops && w'.ops[p] == w.ops[p]
    ensures Registered(w')
  {
    hide Records;
    hide Holds;
    InsertingIsUnshared(w, op, v);
    NoNewHold(w.ops[op], w'.ops[op], v);
    hide Known;
    hide OneRowEach;
    hide OneHolderEach;
    hide HolderOrRow;
    KnownWithRow(w, w', op, v);
    OneRowEachWith(w, w', v);
    OneHolderEachWith(w, w', op);
    HolderOrRowWith(w, w', op, v);
  }

  lemma NoNewHold(o: Op, o': Op, v: Metadata)
    requires o.pc == ToInsert(v) && (o'.pc.Returned? || o'.pc.ToSign? || o'.pc == ToUndo(v))
    ensures forall s :: Holds(o', s) ==> Holds(o, s) && o'.pc == ToUndo(v)
  {
  }

  lemma KnownWithRow(w: World, w': World, op: nat, v: Metadata)
    requires Known(w) && w'.rows == w.rows[v.id := v] && w'.sessions == w.sessions && op in w.ops
    requires v.mode == Multipart ==> v.uploadId in w.sessions
    requires forall p :: p in w'.ops && p != op ==> p in w.ops && w'.ops[p] == w.ops[p]
    requires op in w'.ops && forall s :: Holds(w'.ops[op], s) ==> Holds(w.ops[op], s)
    ensures Known(w')
  {
    hide Holds;
  }

  lemma OneRowEachWith(w: World, w': World, v: Metadata)
    requires OneRowEach(w) && w'.rows == w.rows[v.id := v]
    requires forall i, s :: i in w.rows && Records(w.rows[i], s) ==> !Records(v, s)
    ensures OneRowEach(w')
  {
    hide Records;
  }

  lemma OneHolderEachWith(w: World, w': World, op: nat)
    requires OneHolderEach(w) && op in w.ops && op in w'.ops
    requires forall p :: p in w'.ops && p != op ==> p in w.ops && w'.ops[p] == w.ops[p]
    requires forall s :: Holds(w'.ops[op], s) ==> Holds(w.ops[op], s)
    ensures OneHolderEach(w')
  {
    hide Holds;
  }

  lemma HolderOrRowWith(w: World, w': World, op: nat, v: Metadata)
    requires HolderOrRow(w) && OneHolderEach(w) && w'.rows == w.rows[v.id := v] && op in w.ops && op in w'.ops
    requires w.ops[op].pc == ToInsert(v)
    requires forall s :: Records(v, s) <==> Holds(w.ops[op], s)
    requires forall s :: Holds(w'.ops[op], s) ==> Holds(w.ops[op], s) && w'.ops[op].pc == ToUndo(v)
    requires forall p :: p in w'.ops && p != op ==> p in w.ops && w'.ops[p] == w.ops[p]
    ensures HolderOrRow(w')
  {
    hide Records;
    hide Holds;
  }

  lemma InsertingIsUnshared(w: World, op: nat, v: Metadata)
    requires Registered(w) && op in w.ops && w.ops[op].pc == ToInsert(v)
    ensures forall s :: Records(v, s) <==> Holds(w.ops[op], s)
    ensures v.mode == Multipart ==> Records(v, v.uploadId) && v.uploadId in w.sessions
    ensures forall i, s :: i in w.rows && Records(w.rows[i], s) ==> !Records(v, s)
  {
  }

  lemma RegisteredForUndo(w: World, w': World, op: nat, v: Metadata)
    requires Registered(w) && op in w.ops && w.ops[op].pc == ToInsert(v) && w'.rows == w.rows
    requires w'.sessions == w.sessions && op in w'.ops && w'.ops[op].pc == ToUndo(v)
    requires forall p :: p in w'.ops && p != op ==> p in w.ops && w'.ops[p] == w.ops[p]
    ensures Registered(w')
  {
    assert forall s :: Holds(w'.ops[op], s) ==> Holds(w.ops[op], s);
  }

  predicate LeavesRecords(l: Label) {
    !l.OpenSession? && !l.Insert?
  }

  lemma ReadHoldsNothing(w: World, l: Label)
    requires Enabled(w, l) && l.Read?
    ensures l.op in Apply(w, l).ops && forall s :: !Holds(Apply(w, l).ops[l.op], s)
  {
    hide Draft;
    hide Admission;
    hide Planned;
    hide KeyTaken;
    hide Acceptable;
    var call := w.ops[l.op].call;
    if (call.req.InitiateSingle? || call.req.InitiateMultipart?) && Draft(call, l.grant, l.id, l.now).Ok? {
      DraftNeedsGrant(call, l.grant, l.id, l.now);
    }
  }

  lemma RecordsUnmoved(w: World, l: Label)
    requires Enabled(w, l) && LeavesRecords(l) && !l.Update?
    ensures Apply(w, l).rows == w.rows && OnlyCloses(w, Apply(w, l))
    ensures forall p, s :: p in Apply(w, l).ops && Holds(Apply(w, l).ops[p], s) ==> p in w.ops && Apply(w, l).ops[p] == w.ops[p]
  {
    if l.Read? {
      ReadHoldsNothing(w, l);
      OthersUntouched(w, l);
      hide AfterRead;
    } else {
      OthersRecordsUnmoved(w, l);
    }
  }

  lemma OthersRecordsUnmoved(w: World, l: Label)
    requires Enabled(w, l) && LeavesRecords(l) && !l.Update? && !l.Read?
    ensures Apply(w, l).rows == w.rows && OnlyCloses(w, Apply(w, l))
    ensures forall p, s :: p in Apply(w, l).ops && Holds(Apply(w, l).ops[p], s) ==> p in w.ops && Apply(w, l).ops[p] == w.ops[p]
  {
    hide Apply;
    hide Holds;
    hide IsOpen;
    OthersUntouched(w, l);
    TablesMoveOnlyBy(w, l);
    StepOnlyCloses(w, l);
    if !l.Put? && l.op in Apply(w, l).ops {
      HoldsNothingNew(w, l);
    }
  }

  lemma StepOnlyCloses(w: World, l: Label)
    requires Enabled(w, l) && LeavesRecords(l) && !l.Update? && !l.Read?
    ensures OnlyCloses(w, Apply(w, l))
  {
    hide AfterStat;
    hide AfterRelease;
  }

  lemma HoldsNothingNew(w: World, l: Label)
    requires Enabled(w, l) && LeavesRecords(l) && !l.Update? && !l.Read? && !l.Put? && l.op in Apply(w, l).ops
    ensures forall s :: !Holds(Apply(w, l).ops[l.op], s)
  {
    hide Planned;
    hide CasVersion;
  }

  lemma UpdateLeavesRecords(w: World, op: nat, tx: TxOutcome)
    requires TablesOk(w) && OpsOk(w) && Enabled(w, Update(op, tx))
    ensures SameRecords(w, Apply(w, Update(op, tx))) && Apply(w, Update(op, tx)).sessions == w.sessions
    ensures forall p, s :: p in Apply(w, Update(op, tx)).ops && Holds(Apply(w, Update(op, tx)).ops[p], s)
              ==> p in w.ops && Apply(w, Update(op, tx)).ops[p] == w.ops[p]
  {
    hide Apply;
    hide TablesOk;
    hide OpsOk;
    hide Staged;
    hide DbUpdate;
    hide StatusOk;
    hide Facts;
    UpdatingIsStaged(w, op);
    UpdateMoves(w, op, tx);
    OthersUntouched(w, Update(op, tx));
    var Op(call, ToUpdate(base, v, expected, info)) := w.ops[op];
    if Applies(w, op, tx) {
      UpdatedRow(w, call, base, v, expected, info);
      RowKeepsFacts(w, call, base, v, expected, info);
      SameIdByFacts(w.rows[v.id], v.(version := expected + 1));
    }
  }

  lemma RowKeepsFacts(w: World, call: Call, base: Metadata, v: Metadata, expected: int, info: Option<ObjectInfo>)
    requires TablesOk(w) && CanUpdate(w, v, expected) && Staged(w, call, base, v, expected, info)
    ensures Facts(w.rows[v.id]) == Facts(v) == Facts(v.(version := expected + 1)) == Facts(base)
    ensures base.id == v.id
  {
    hide Staged;
    hide StatusOk;
    hide Facts;
    hide DbUpdate;
    UpdatedRow(w, call, base, v, expected, info);
    FactsIgnoreVersion(v, expected + 1);
    CurrentFacts(w, v.id);
  }

  lemma StepKeepsRegistered(w: World, l: Label)
    requires Inv(w) && Registered(w) && Enabled(w, l)
    ensures Registered(Apply(w, l))
  {
    hide Registered;
    hide Apply;
    hide Enabled;
    hide TablesOk;
    hide OutboxOk;
    hide KeysUnique;
    hide OpsOk;
    if l.OpenSession? {
      OpenRegisters(w, l);
    } else if l.Insert? {
      InsertRegisters(w, l.op, l.tx);
    } else {
      if l.Update? {
        UpdateLeavesRecords(w, l.op, l.tx);
      } else {
        RecordsUnmoved(w, l);
      }
      UnmovedRecordsStayRegistered(w, Apply(w, l));
    }
  }

  // ---- Expired rows ----

  lemma ClosedStaysClosed(w: World, l: Label, s: string)
    requires Enabled(w, l) && s in w.sessions && !IsOpen(w, s)
    ensures s in Apply(w, l).sessions && !IsOpen(Apply(w, l), s)
  {
    hide AfterRead;
    hide AfterStat;
    hide AfterRelease;
    hide DbUpdate;
    hide CanInsert;
    hide CanUpdate;
  }

  /** The only step onto a releasing commit is the successful abort of the session. */
  lemma ReleasingBegins(w: World, l: Label, p: nat)
    requires OpsOk(w) && Enabled(w, l) && p in Apply(w, l).ops && Releasing(Apply(w, l).ops[p])
    ensures p in w.ops
    ensures w.ops[p] == Apply(w, l).ops[p]
            || (l.AbortSession? && l.op == p && l.outcome == Done && w.ops[p].pc.ToAbort?
                && Apply(w, l).ops[p].pc.base == w.ops[p].pc.v)
  {
    hide Apply;
    hide OpOk;
    OthersUntouched(w, l);
    if !l.Put? && l.op == p {
      match l
      case Begin(op, call) => BeginAtStart(w, op, call);
      case Read(_, _, _, _, _) => ReadReleasesNothing(w, l);
      case Insert(op, tx) => InsertMoves(w, op, tx);
      case Update(op, tx) => UpdateMoves(w, op, tx);
      case Crash(op) => CrashForgets(w, op);
      case _ => StoreStepReleases(w, l);
    }
  }

  lemma ReadReleasesNothing(w: World, l: Label)
    requires Enabled(w, l) && l.Read?
    ensures l.op in Apply(w, l).ops && !Releasing(Apply(w, l).ops[l.op])
  {
    hide Draft;
    hide Admission;
    hide FindByKey;
    hide Planned;
    hide Acceptable;
  }

  lemma StoreStepReleases(w: World, l: Label)
    requires IsStoreStep(l) && Enabled(w, l) && OpsOk(w)
    requires l.op in Apply(w, l).ops && Releasing(Apply(w, l).ops[l.op])
    ensures l.op in w.ops && l.AbortSession? && l.outcome == Done && w.ops[l.op].pc.ToAbort?
    ensures Apply(w, l).ops[l.op].pc.base == w.ops[l.op].pc.v
  {
    OpIsOk(w, l.op);
    hide OpsOk;
    hide Snapshot;
    hide Names;
    hide Drafted;
    hide Planned;
    hide Acceptable;
  }

  lemma AbortCloses(w: World, l: Label)
    requires l.AbortSession? && Enabled(w, l) && l.outcome == Done
    ensures !IsOpen(Apply(w, l), w.ops[l.op].pc.v.uploadId)
  {
    hide AfterRelease;
  }

  lemma AbortingKnowsSession(w: World, op: nat)
    requires TablesOk(w) && OpsOk(w) && Registered(w) && op in w.ops && w.ops[op].pc.ToAbort?
    ensures w.ops[op].pc.v.uploadId in w.sessions
  {
    hide TablesOk;
    assert OpOk(w, w.ops[op]);
    SnapshotFacts(w, w.ops[op].pc.v);
  }

  lemma ReleasingStaysClosed(w: World, l: Label, p: nat)
    requires TablesOk(w) && OpsOk(w) && Registered(w) && Released(w) && Enabled(w, l)
    requires p in Apply(w, l).ops && Releasing(Apply(w, l).ops[p])
    ensures var s := Apply(w, l).ops[p].pc.base.uploadId; s in Apply(w, l).sessions && !IsOpen(Apply(w, l), s)
  {
    hide Apply;
    hide OpOk;
    hide TablesOk;
    hide Registered;
    ReleasingBegins(w, l, p);
    if w.ops[p] == Apply(w, l).ops[p] {
      ClosedStaysClosed(w, l, w.ops[p].pc.base.uploadId);
    } else {
      AbortingKnowsSession(w, p);
      AbortCloses(w, l);
      SessionsStayKnown(w, l, w.ops[p].pc.v.uploadId);
    }
  }

  lemma SessionsStayKnown(w: World, l: Label, s: string)
    requires Enabled(w, l) && s in w.sessions
    ensures s in Apply(w, l).sessions
  {
    hide AfterRead;
    hide AfterStat;
    hide AfterRelease;
    hide DbUpdate;
    hide CanInsert;
    hide CanUpdate;
  }

  /** A new commit that gives a session up is the one of a releasing call. */
  lemma GivesUp(w: World, l: Label, i: string, k: int)
    requires Inv(w) && Enabled(w, l) && i in Apply(w, l).history && 0 <= k < |Apply(w, l).history[i]|
    requires GaveUp(Apply(w, l).history[i][k])
    ensures (i in w.history && k < |w.history[i]| && w.history[i][k] == Apply(w, l).history[i][k])
            || (l.Update? && l.op in w.ops && Releasing(w.ops[l.op])
                && w.ops[l.op].pc.base.uploadId == Apply(w, l).history[i][k].row.uploadId)
  {
    hide Inv;
    hide Apply;
    hide GaveUp;
    if l.Insert? {
      InsertGivesNothingUp(w, l.op, l.tx, i, k);
    } else if l.Update? {
      UpdateGivesUp(w, l.op, l.tx, i, k);
    } else {
      TablesMoveOnlyBy(w, l);
    }
  }

  lemma InsertGivesNothingUp(w: World, op: nat, tx: TxOutcome, i: string, k: int)
    requires Inv(w) && Enabled(w, Insert(op, tx))
    requires i in Apply(w, Insert(op, tx)).history && 0 <= k < |Apply(w, Insert(op, tx)).history[i]|
    requires GaveUp(Apply(w, Insert(op, tx)).history[i][k])
    ensures i in w.history && k < |w.history[i]| && w.history[i][k] == Apply(w, Insert(op, tx)).history[i][k]
  {
    hide TablesOk;
    hide OutboxOk;
    hide KeysUnique;
    hide OpsOk;
    hide Drafted;
    hide KeyTaken;
    hide Project;
    InsertingIsDrafted(w, op);
    DraftedByInitiate(w.ops[op].call, w.ops[op].pc.v);
  }

  lemma UpdateGivesUp(w: World, op: nat, tx: TxOutcome, i: string, k: int)
    requires Inv(w) && Enabled(w, Update(op, tx))
    requires i in Apply(w, Update(op, tx)).history && 0 <= k < |Apply(w, Update(op, tx)).history[i]|
    requires GaveUp(Apply(w, Update(op, tx)).history[i][k])
    ensures (i in w.history && k < |w.history[i]| && w.history[i][k] == Apply(w, Update(op, tx)).history[i][k])
            || (Releasing(w.ops[op]) && w.ops[op].pc.base.uploadId == Apply(w, Update(op, tx)).history[i][k].row.uploadId)
  {
    hide Inv;
    hide Apply;
    hide DbUpdate;
    hide Facts;
    hide Staged;
    hide StatusOk;
    hide TablesOk;
    hide OpsOk;
    InvTables(w);
    InvOps(w);
    UpdatingIsStaged(w, op);
    var Op(call, ToUpdate(base, v, expected, info)) := w.ops[op];
    if Applies(w, op, tx) {
      UpdateHistory(w, op, tx);
      UpdatedRow(w, call, base, v, expected, info);
      SameIdByFacts(base, v);
    } else {
      NoHistory(w, op, tx);
    }
  }

  lemma NoHistory(w: World, op: nat, tx: TxOutcome)
    requires Enabled(w, Update(op, tx)) && !Applies(w, op, tx)
    ensures Apply(w, Update(op, tx)).history == w.history
  {
  }

  lemma GivenUpIsKnown(w: World, i: string, k: int)
    requires Inv(w) && Registered(w) && i in w.history && 0 <= k < |w.history[i]| && GaveUp(w.history[i][k])
    ensures w.history[i][k].row.uploadId in w.sessions
  {
    hide Inv;
    hide Facts;
    InvTables(w);
    SnapshotOf(w, i, k);
    SnapshotFacts(w, w.history[i][k].row);
  }

  lemma StepKeepsReleased(w: World, l: Label)
    requires Inv(w) && Registered(w) && Released(w) && Enabled(w, l)
    ensures Released(Apply(w, l))
  {
    hide Apply;
    hide TablesOk;
    hide OutboxOk;
    hide KeysUnique;
    hide OpsOk;
    hide Enabled;
    hide IsOpen;
    hide GaveUp;
    var w' := Apply(w, l);
    forall p | p in w'.ops && Releasing(w'.ops[p])
      ensures w'.ops[p].pc.ToUpdate?
      ensures w'.ops[p].pc.base.uploadId in w'.sessions && !IsOpen(w', w'.ops[p].pc.base.uploadId)
    {
      ReleasingStaysClosed(w, l, p);
    }
    forall i, k | i in w'.history && 0 <= k < |w'.history[i]| && GaveUp(w'.history[i][k])
      ensures !IsOpen(w', w'.history[i][k].row.uploadId)
    {
      GivesUp(w, l, i, k);
      if i in w.history && k < |w.history[i]| && w.history[i][k] == w'.history[i][k] {
        GivenUpIsKnown(w, i, k);
      } else {
        assert l.op in w.ops && Releasing(w.ops[l.op]);
      }
      ClosedStaysClosed(w, l, w'.history[i][k].row.uploadId);
    }
  }

  lemma EmptySessions()
    ensures Registered(EMPTY) && Released(EMPTY) && Owned(EMPTY)
  {
  }

  lemma {:induction false} RunKeepsSessions(w: World, run: seq<Label>)
    requires Inv(w) && Registered(w) && Released(w) && IsRun(w, run)
    ensures Inv(After(w, run)) && Registered(After(w, run)) && Released(After(w, run))
    decreases |run|
  {
    hide Inv;
    hide Registered;
    hide Released;
    hide Apply;
    hide Enabled;
    if run != [] {
      StepKeepsInv(w, run[0]);
      StepKeepsRegistered(w, run[0]);
      StepKeepsReleased(w, run[0]);
      RunKeepsSessions(Apply(w, run[0]), run[1..]);
    }
  }

  lemma ReachableSessions(w: World)
    requires Reachable(w)
    ensures Inv(w) && Registered(w) && Released(w)
  {
    hide Inv;
    hide Registered;
    hide Released;
    var run :| IsRun(EMPTY, run) && After(EMPTY, run) == w;
    EmptyInv();
    EmptySessions();
    RunKeepsSessions(EMPTY, run);
  }

  lemma ExpiredIsClosed(w: World)
    requires Inv(w) && Released(w)
    ensures forall i :: i in w.rows && w.rows[i].mode == Multipart && w.rows[i].status == Expired ==>
              !IsOpen(w, w.rows[i].uploadId)
  {
    hide Inv;
    hide IsOpen;
    hide Released;
    InvTables(w);
    hide TablesOk;
    forall i | i in w.rows && w.rows[i].mode == Multipart && w.rows[i].status == Expired
      ensures !IsOpen(w, w.rows[i].uploadId)
    {
      ExpiredRowIsClosed(w, i);
    }
  }

  lemma ExpiredRowIsClosed(w: World, i: string)
    requires TablesOk(w) && Released(w) && i in w.rows && w.rows[i].mode == Multipart && w.rows[i].status == Expired
    ensures !IsOpen(w, w.rows[i].uploadId)
  {
    hide HistoryOk;
    hide IsOpen;
    RowIsSnapshot(w, i);
    ExpiredByCleanup(i, w.history[i]);
    assert GaveUp(w.history[i][|w.history[i]| - 1]);
  }

  lemma ExpiredByCleanup(id: string, h: seq<Commit>)
    requires HistoryOk(id, h) && h[|h| - 1].row.status == Expired
    ensures h[|h| - 1].call.req.Cleanup?
  {
    hide HistoryOk;
    ExpiredIsLater(id, h);
    HistoryIsAccounted(id, h, |h| - 1);
  }

  lemma ExpiredIsLater(id: string, h: seq<Commit>)
    requires HistoryOk(id, h) && h[|h| - 1].row.status == Expired
    ensures |h| > 1
  {
    hide Drafted;
    hide Derived;
    hide Facts;
    assert StatusOk(h[|h| - 1].row);
  }

  /** In every run: a session is recorded in at most one row, and an expired multipart row
      never has an open session. */
  lemma ExpiredMeansClosed(w: World, id: string)
    requires Reachable(w) && id in w.rows && w.rows[id].mode == Multipart
    ensures w.rows[id].status == Expired ==> !IsOpen(w, w.rows[id].uploadId)
    ensures forall i :: i in w.rows && Records(w.rows[i], w.rows[id].uploadId) ==> i == id
  {
    hide Inv;
    ReachableSessions(w);
    ExpiredIsClosed(w);
    assert Records(w.rows[id], w.rows[id].uploadId);
  }

  /** In every run: once an abort, or the cleanup of a multipart upload, has committed, its
      session is closed for good, whatever becomes of the row. */
  lemma AbortedMeansClosed(w: World, id: string, k: int)
    requires Reachable(w) && id in w.rows && id in w.history && 0 <= k < |w.history[id]|
    requires w.history[id][k].call.req.Abort? || (w.history[id][k].call.req.Cleanup? && w.rows[id].mode == Multipart)
    ensures w.rows[id].mode == Multipart && !IsOpen(w, w.rows[id].uploadId)
  {
    hide Inv;
    hide Facts;
    hide HistoryOk;
    hide Registered;
    hide Reachable;
    hide Snapshot;
    hide IsOpen;
    ReachableSessions(w);
    InvTables(w);
    SnapshotOf(w, id, k);
    SnapshotFacts(w, w.history[id][k].row);
    if w.history[id][k].call.req.Abort? {
      AbortsAreMultipart(id, w.history[id], k);
    }
    assert GaveUp(w.history[id][k]);
  }

  lemma AbortsAreMultipart(id: string, h: seq<Commit>, k: int)
    requires HistoryOk(id, h) && 0 <= k < |h| && h[k].call.req.Abort?
    ensures h[k].row.mode == Multipart
  {
    hide Drafted;
    hide Facts;
    hide StatusOk;
    hide Accounts;
    if k == 0 {
      DraftedByInitiate(h[0].call, h[0].row);
    } else {
      assert Derived(h, k);
      AbortPlansMultipart(h[k].call, h[h[k].seen - 1].row, h[k].info, h[k].row.updatedAt);
    }
  }

  lemma AbortPlansMultipart(call: Call, v: Metadata, info: Option<ObjectInfo>, now: int)
    requires call.req.Abort? && Planned(call, v, info, now).Some?
    ensures Planned(call, v, info, now).value.mode == Multipart
  {
  }

  /** An initiate that could not insert its row closes its own session and no other: nobody
      else holds it, and no row of another file records it. */
  lemma LoserClosesOnlyItsOwn(w: World, op: nat, outcome: Outcome)
    requires Reachable(w) && Enabled(w, Undo(op, outcome))
    ensures var s := w.ops[op].pc.v.uploadId;
            && (forall i :: i in w.rows && Records(w.rows[i], s) ==> i == w.ops[op].pc.v.id)
            && (forall p :: p in w.ops && Holds(w.ops[p], s) ==> p == op)
            && forall t :: t in w.sessions && t != s ==>
                 t in Apply(w, Undo(op, outcome)).sessions && Apply(w, Undo(op, outcome)).sessions[t] == w.sessions[t]
  {
    hide Inv;
    hide Apply;
    hide Reachable;
    ReachableSessions(w);
    UndoingHolds(w, op);
    UndoClosesOne(w, op, outcome);
  }

  lemma UndoingHolds(w: World, op: nat)
    requires Inv(w) && op in w.ops && w.ops[op].pc.ToUndo?
    ensures Holds(w.ops[op], w.ops[op].pc.v.uploadId)
  {
    hide Drafted;
    assert OpOk(w, w.ops[op]);
  }

  lemma UndoClosesOne(w: World, op: nat, outcome: Outcome)
    requires Enabled(w, Undo(op, outcome))
    ensures forall t :: t in w.sessions && t != w.ops[op].pc.v.uploadId ==>
              t in Apply(w, Undo(op, outcome)).sessions && Apply(w, Undo(op, outcome)).sessions[t] == w.sessions[t]
  {
  }

  // ---- No orphans ----

  ghost predicate Recorded(w: World, s: string) {
    exists i :: i in w.rows && Records(w.rows[i], s)
  }

  /** The step loses no session: it does not open one behind an error, does not give up the
      abort of one that no row records, and is no crash of a call that holds such a one. */
  ghost predicate KeepsOwners(w: World, l: Label)
    requires Enabled(w, l)
  {
    match l
    case OpenSession(_, outcome, _) => outcome != Lost
    case Undo(op, outcome) =>
      outcome != NotDone || !IsOpen(w, w.ops[op].pc.v.uploadId) || Recorded(w, w.ops[op].pc.v.uploadId)
    case Crash(op) => forall s :: Holds(w.ops[op], s) && IsOpen(w, s) ==> Recorded(w, s)
    case _ => true
  }

  /** A holder keeps holding, hands its session to a row, or closes it. */
  lemma HolderMoves(w: World, l: Label, p: nat, s: string)
    requires Inv(w) && Enabled(w, l) && KeepsOwners(w, l) && p in w.ops && Holds(w.ops[p], s)
    requires IsOpen(w, s) && IsOpen(Apply(w, l), s)
    ensures HasOwner(Apply(w, l), s)
  {
    hide Inv;
    hide Apply;
    hide Enabled;
    hide Records;
    hide IsOpen;
    CallsStay(w, l);
    OthersUntouched(w, l);
    if !l.Put? && l.op == p {
      HolderActs(w, l, s);
      if !l.Insert? && Recorded(w, s) {
        var i :| i in w.rows && Records(w.rows[i], s);
        RecorderStays(w, l, i, s);
      }
    } else {
      assert p in Apply(w, l).ops && Apply(w, l).ops[p] == w.ops[p];
    }
  }

  /** What a call that holds a session can do with it. */
  lemma HolderActs(w: World, l: Label, s: string)
    requires Enabled(w, l) && KeepsOwners(w, l) && !l.Put? && l.op in w.ops && Holds(w.ops[l.op], s)
    requires IsOpen(w, s) && IsOpen(Apply(w, l), s)
    ensures HasOwner(Apply(w, l), s) || (!l.Insert? && Recorded(w, s))
  {
    hide KeyTaken;
    hide Project;
    var w' := Apply(w, l);
    if l.Insert? {
      var v := w.ops[l.op].pc.v;
      assert (l.op in w'.ops && Holds(w'.ops[l.op], s)) || (v.id in w'.rows && Records(w'.rows[v.id], s));
    }
  }

  lemma RecorderStays(w: World, l: Label, i: string, s: string)
    requires Inv(w) && Enabled(w, l) && i in w.rows && Records(w.rows[i], s)
    ensures HasOwner(Apply(w, l), s)
  {
    hide Inv;
    hide Apply;
    RowsKeepSession(w, l, i);
    assert Records(Apply(w, l).rows[i], s);
  }

  lemma RowsKeepSession(w: World, l: Label, i: string)
    requires Inv(w) && Enabled(w, l) && i in w.rows
    ensures i in Apply(w, l).rows
    ensures Apply(w, l).rows[i].mode == w.rows[i].mode && Apply(w, l).rows[i].uploadId == w.rows[i].uploadId
  {
    hide TablesOk;
    hide OutboxOk;
    hide KeysUnique;
    hide OpsOk;
    hide DbUpdate;
    hide KeyTaken;
    hide CanUpdate;
    if l.Update? {
      UpdateLeavesRecords(w, l.op, l.tx);
    } else if !l.Insert? {
      TablesMoveOnlyBy(w, l);
    }
  }

  lemma OpenedHasOwner(w: World, l: Label, s: string)
    requires OpsOk(w) && Enabled(w, l) && KeepsOwners(w, l) && IsOpen(Apply(w, l), s) && !IsOpen(w, s)
    ensures HasOwner(Apply(w, l), s)
  {
    OnlyOpeningOpens(w, l, s);
    hide Drafted;
    assert OpOk(w, w.ops[l.op]);
    hide OpsOk;
    hide OpOk;
    assert Holds(Apply(w, l).ops[l.op], s);
  }

  lemma OnlyOpeningOpens(w: World, l: Label, s: string)
    requires Enabled(w, l) && IsOpen(Apply(w, l), s) && !IsOpen(w, s)
    ensures l.OpenSession? && l.outcome != NotDone && l.uploadId == s
  {
    hide AfterRead;
    hide AfterStat;
    hide AfterRelease;
    hide DbUpdate;
    hide CanInsert;
    hide CanUpdate;
  }

  lemma StepKeepsOwned(w: World, l: Label)
    requires Inv(w) && Owned(w) && Enabled(w, l) && KeepsOwners(w, l)
    ensures Owned(Apply(w, l))
  {
    hide Apply;
    hide Enabled;
    hide KeepsOwners;
    hide TablesOk;
    hide OutboxOk;
    hide KeysUnique;
    hide OpsOk;
    hide IsOpen;
    forall s | IsOpen(Apply(w, l), s) ensures HasOwner(Apply(w, l), s) {
      if !IsOpen(w, s) {
        OpenedHasOwner(w, l, s);
      } else if exists p :: p in w.ops && Holds(w.ops[p], s) {
        var p :| p in w.ops && Holds(w.ops[p], s);
        HolderMoves(w, l, p, s);
      } else {
        var i :| i in w.rows && Records(w.rows[i], s);
        RecorderStays(w, l, i, s);
      }
    }
  }

  lemma LostOpeningOrphans(w: World, op: nat, uploadId: string)
    requires Registered(w) && Enabled(w, OpenSession(op, Lost, uploadId))
    ensures !Owned(Apply(w, OpenSession(op, Lost, uploadId)))
  {
    var w' := Apply(w, OpenSession(op, Lost, uploadId));
    assert IsOpen(w', uploadId);
    assert forall p :: p in w'.ops && p != op ==> p in w.ops && w'.ops[p] == w.ops[p];
    assert w'.ops[op].pc.Returned?;
  }

  lemma GivenUpUndoOrphans(w: World, op: nat)
    requires Registered(w) && Enabled(w, Undo(op, NotDone)) && Holds(w.ops[op], w.ops[op].pc.v.uploadId)
    requires IsOpen(w, w.ops[op].pc.v.uploadId) && !Recorded(w, w.ops[op].pc.v.uploadId)
    ensures !Owned(Apply(w, Undo(op, NotDone)))
  {
    var w' := Apply(w, Undo(op, NotDone));
    var s := w.ops[op].pc.v.uploadId;
    assert IsOpen(w', s);
    assert forall p :: p in w'.ops && p != op ==> p in w.ops && w'.ops[p] == w.ops[p];
    assert w'.ops[op].pc.Returned?;
  }

  lemma CrashOrphans(w: World, op: nat, s: string)
    requires Registered(w) && Enabled(w, Crash(op)) && Holds(w.ops[op], s) && IsOpen(w, s) && !Recorded(w, s)
    ensures !Owned(Apply(w, Crash(op)))
  {
    var w' := Apply(w, Crash(op));
    assert IsOpen(w', s);
    assert forall p :: p in w'.ops ==> p in w.ops && p != op && w'.ops[p] == w.ops[p];
  }

  /** In any interleaving: while every open session has an owner, the next step keeps that so
      if and only if it keeps owners in the sense above. */
  lemma StepOwnedExactlyWhen(w: World, l: Label)
    requires Reachable(w) && Owned(w) && Enabled(w, l)
    ensures Owned(Apply(w, l)) <==> KeepsOwners(w, l)
  {
    hide Reachable;
    hide Inv;
    hide Registered;
    hide Owned;
    hide Apply;
    ReachableSessions(w);
    if KeepsOwners(w, l) {
      StepKeepsOwned(w, l);
    } else if l.OpenSession? {
      LostOpeningOrphans(w, l.op, l.uploadId);
    } else if l.Undo? {
      UndoingHolds(w, l.op);
      GivenUpUndoOrphans(w, l.op);
    } else {
      var s :| Holds(w.ops[l.op], s) && IsOpen(w, s) && !Recorded(w, s);
      CrashOrphans(w, l.op, s);
    }
  }

  /** Every open session has an owner all along the run. */
  ghost predicate AlwaysOwned(w: World, run: seq<Label>)
    requires IsRun(w, run)
    decreases |run|
  {
    Owned(w) && (run == [] || AlwaysOwned(Apply(w, run[0]), run[1..]))
  }

  ghost predicate AllKeepOwners(w: World, run: seq<Label>)
    requires IsRun(w, run)
    decreases |run|
  {
    run == [] || (KeepsOwners(w, run[0]) && AllKeepOwners(Apply(w, run[0]), run[1..]))
  }

  /** Every session open in storage is held by an initiate in flight or recorded in a row, all
      along a run, if and only if every step of the run keeps owners. */
  lemma {:induction false} NoOrphansExactlyWhen(w: World, run: seq<Label>)
    requires Reachable(w) && Owned(w) && IsRun(w, run)
    ensures AlwaysOwned(w, run) <==> AllKeepOwners(w, run)
    ensures AlwaysOwned(w, run) ==> Owned(After(w, run))
    decreases |run|
  {
    hide Reachable;
    hide Owned;
    hide KeepsOwners;
    hide Apply;
    hide Enabled;
    if run != [] {
      StepOwnedExactlyWhen(w, run[0]);
      if KeepsOwners(w, run[0]) {
        ReachableStep(w, run[0]);
        NoOrphansExactlyWhen(Apply(w, run[0]), run[1..]);
      } else {
        OrphanedFrom(Apply(w, run[0]), run[1..]);
      }
    }
  }

  lemma OrphanedFrom(w: World, run: seq<Label>)
    requires IsRun(w, run) && !Owned(w)
    ensures !AlwaysOwned(w, run)
  {
    hide Owned;
  }

  /** For a whole run that keeps owners: an open session has exactly one owner among the
      initiates in flight, or exactly one row, and that row is not expired. */
  lemma OpenSessionsAreAccountedFor(run: seq<Label>, s: string)
    requires IsRun(EMPTY, run) && AllKeepOwners(EMPTY, run) && IsOpen(After(EMPTY, run), s)
    ensures var w := After(EMPTY, run);
            && HasOwner(w, s)
            && (forall p, q :: p in w.ops && q in w.ops && Holds(w.ops[p], s) && Holds(w.ops[q], s) ==> p == q)
            && (forall i, j :: i in w.rows && j in w.rows && Records(w.rows[i], s) && Records(w.rows[j], s) ==> i == j)
            && (forall i :: i in w.rows && Records(w.rows[i], s) ==> w.rows[i].status != Expired)
  {
    hide Inv;
    hide Apply;
    hide Enabled;
    hide AllKeepOwners;
    hide AlwaysOwned;
    EmptySessions();
    ReachableEmpty();
    NoOrphansExactlyWhen(EMPTY, run);
    ReachableAfter(EMPTY, run);
    ReachableSessions(After(EMPTY, run));
    ExpiredIsClosed(After(EMPTY, run));
  }

  /** No step of a delete call touches a session. */
  lemma DeletionLeavesSessions(w: World, l: Label)
    requires Reachable(w) && Enabled(w, l) && !l.Put? && l.op in w.ops && w.ops[l.op].call.req.Delete?
    ensures Apply(w, l).sessions == w.sessions
  {
    hide AfterRead;
    hide AfterStat;
    hide AfterRelease;
    hide DbUpdate;
    hide KeyTaken;
    hide CanUpdate;
    hide TablesOk;
    hide OutboxOk;
    hide KeysUnique;
    ReachableInv(w);
    assert OpOk(w, w.ops[l.op]);
  }
}
