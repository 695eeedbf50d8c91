/** A user's call, run by itself, does not depend on what other tenants have stored. */
module NonInterference {
  import opened Basics
  import opened Completion
  import opened ObjectKeys
  import opened Model
  import opened Protocol
  import opened Invariants
  import opened History
  import opened Serializability
  import opened Sessions
  import opened Scope

  ghost predicate SameAt<T>(a: map<string, T>, b: map<string, T>, k: string) {
    (k in a <==> k in b) && (k in a ==> a[k] == b[k])
  }

  /** Storage holds the same object and session for row `v`. */
  ghost predicate SameAround(w1: World, w2: World, v: Metadata) {
    SameAt(w1.objects, w2.objects, v.objectKey) && (v.mode == Multipart ==> SameAt(w1.sessions, w2.sessions, v.uploadId))
  }

  predicate UserOf(call: Call, tenant: string) {
    call.caller.Some? && call.caller.value.isUser && call.caller.value.tenant == tenant && !call.req.Cleanup?
  }

  /** What the call still has to deal with in storage is the same in both. */
  ghost predicate SameAhead(w1: World, w2: World, pc: Pc) {
    match pc
    case ToOpen(v) => SameAt(w1.objects, w2.objects, v.objectKey) && v.id !in w1.rows && v.id !in w2.rows
    case ToInsert(v) => SameAround(w1, w2, v) && v.id !in w1.rows && v.id !in w2.rows
    case ToUndo(v) => SameAround(w1, w2, v)
    case ToFinish(v) => SameAround(w1, w2, v)
    case ToStat(v) => SameAround(w1, w2, v)
    case ToAbort(v) => SameAround(w1, w2, v)
    case ToRemove(v) => SameAround(w1, w2, v)
    case _ => true
  }

  /** The two worlds look the same to the tenant. */
  ghost predicate SameTenant(w1: World, w2: World, tenant: string) {
    && SameFor(w1.rows, w2.rows, tenant)
    && forall id :: id in w1.rows && w1.rows[id].tenant == tenant ==> SameAround(w1, w2, w1.rows[id])
  }

  /** And the call `op` of one of its users stands at the same place, with the same row. */
  ghost predicate SameCall(w1: World, w2: World, op: nat, tenant: string) {
    && (op in w1.ops <==> op in w2.ops)
    && (op in w1.ops ==>
          && w1.ops[op] == w2.ops[op] && UserOf(w1.ops[op].call, tenant) && CarriesOwn(w1.ops[op])
          && SameAhead(w1, w2, w1.ops[op].pc))
  }

  ghost predicate Alike(w1: World, w2: World, op: nat, tenant: string) {
    SameTenant(w1, w2, tenant) && SameCall(w1, w2, op, tenant)
  }

  /** No stored file or object has this id. */
  ghost predicate NewId(w: World, id: string) {
    id !in w.rows && forall k :: k in w.objects ==> IdOf(k) != id
  }

  /** A step of call `op`, enabled in both worlds; the ids it brings along are new in both. */
  ghost predicate OwnStep(w1: World, w2: World, l: Label, op: nat, tenant: string) {
    && !l.Put? && l.op == op && Enabled(w1, l) && Enabled(w2, l)
    && (l.Begin? ==> UserOf(l.call, tenant))
    && (l.Read? ==> NewId(w1, l.id) && NewId(w2, l.id))
  }

  ghost predicate SoloCall(w1: World, w2: World, run: seq<Label>, op: nat, tenant: string)
    decreases |run|
  {
    run == [] ||
    (OwnStep(w1, w2, run[0], op, tenant) && SoloCall(Apply(w1, run[0]), Apply(w2, run[0]), run[1..], op, tenant))
  }

  /** What storage holds alike before the two steps it holds alike after. */
  ghost predicate KeepsSame(w1: World, w2: World, w1': World, w2': World) {
    && (forall k :: SameAt(w1.objects, w2.objects, k) ==> SameAt(w1'.objects, w2'.objects, k))
    && (forall k :: SameAt(w1.sessions, w2.sessions, k) ==> SameAt(w1'.sessions, w2'.sessions, k))
  }

  lemma AroundKept(w1: World, w2: World, w1': World, w2': World, v: Metadata)
    requires KeepsSame(w1, w2, w1', w2') && SameAround(w1, w2, v)
    ensures SameAround(w1', w2', v)
  {
  }

  lemma TenantKept(w1: World, w2: World, w1': World, w2': World, tenant: string)
    requires SameTenant(w1, w2, tenant) && KeepsSame(w1, w2, w1', w2') && w1'.rows == w1.rows && w2'.rows == w2.rows
    ensures SameTenant(w1', w2', tenant)
  {
    hide SameAround;
    hide KeepsSame;
    forall id | id in w1'.rows && w1'.rows[id].tenant == tenant ensures SameAround(w1', w2', w1'.rows[id]) {
      AroundKept(w1, w2, w1', w2', w1.rows[id]);
    }
  }

  // ---- Reading ----

  /** What a read can lead to: the row found, or a draft under the new id. */
  lemma ReadLeadsTo(w: World, o: Op, grant: Grant, dbOk: bool, id: string, now: int)
    requires TablesOk(w) && IsUuid(id) && !o.call.req.Cleanup?
    requires o.pc == Start || (o.pc == Reread && o.call.req.CompleteMultipart?)
    ensures match AfterRead(w.rows, o, grant, dbOk, id, now)
            case ToOpen(v) => v.id == id && IdOf(v.objectKey) == id
            case ToInsert(v) => v.id == id && IdOf(v.objectKey) == id && v.mode == Single
            case ToUndo(_) => false
            case ToFinish(v) => v.id in w.rows && w.rows[v.id] == v
            case ToStat(v) => v.id in w.rows && w.rows[v.id] == v
            case ToAbort(v) => v.id in w.rows && w.rows[v.id] == v
            case ToRemove(v) => v.id in w.rows && w.rows[v.id] == v
            case _ => true
  {
    hide TablesOk;
    hide InitiateRead;
    hide AfterGet;
    hide Admission;
    var req := o.call.req;
    if req.InitiateSingle? || req.InitiateMultipart? {
      InitiateLeadsTo(w, o.call, grant, dbOk, id, now);
    } else if Find(w.rows, req.target).Some? {
      RowIsSnapshot(w, req.target.id);
      GetLeadsTo(o.call, Find(w.rows, req.target).value, now);
    }
  }

  lemma GetLeadsTo(call: Call, v: Metadata, now: int)
    requires Completing(call) || call.req.Abort? || call.req.Report? || call.req.Delete? || call.req.Download?
             || call.req.AuthorizePart?
    ensures match AfterGet(call, v, now)
            case ToOpen(_) => false
            case ToInsert(_) => false
            case ToUndo(_) => false
            case ToFinish(u) => u == v
            case ToStat(u) => u == v
            case ToAbort(u) => u == v
            case ToRemove(u) => u == v
            case _ => true
  {
    hide Planned;
    hide Acceptable;
  }

  lemma InitiateLeadsTo(w: World, call: Call, grant: Grant, dbOk: bool, id: string, now: int)
    requires (call.req.InitiateSingle? || call.req.InitiateMultipart?) && IsUuid(id)
    ensures match InitiateRead(w.rows, call, grant, dbOk, id, now)
            case ToOpen(v) => v.id == id && IdOf(v.objectKey) == id
            case ToInsert(v) => v.id == id && IdOf(v.objectKey) == id && v.mode == Single
            case ToSign(_) => true
            case Returned(_) => true
            case _ => false
  {
    hide Draft;
    hide FindByKey;
    hide IdOf;
    if Draft(call, grant, id, now).Ok? {
      DraftNeedsGrant(call, grant, id, now);
      DraftsOwnKey(call, grant, id, now);
    }
  }

  lemma DraftsOwnKey(call: Call, grant: Grant, id: string, now: int)
    requires (call.req.InitiateSingle? || call.req.InitiateMultipart?) && IsUuid(id)
    requires Draft(call, grant, id, now).Ok?
    ensures IdOf(Draft(call, grant, id, now).value.objectKey) == id
  {
    hide IdOf;
    hide ObjectKey;
    hide CleanFilename;
    var u := Normalize(call.req.upload);
    DecodeObjectKey(u.tenant, u.application, id, call.req.upload.filename);
    DraftKey(call, grant, id, now);
  }

  lemma DraftKey(call: Call, grant: Grant, id: string, now: int)
    requires call.req.InitiateSingle? || call.req.InitiateMultipart?
    requires Draft(call, grant, id, now).Ok?
    ensures var u := Normalize(call.req.upload);
            Draft(call, grant, id, now).value.objectKey
            == ObjectKey(u.tenant, u.application, id, CleanFilename(call.req.upload.filename))
  {
    hide ObjectKey;
    hide CleanFilename;
    hide VerifyApplication;
  }

  lemma ReadAlike(w1: World, w2: World, l: Label, op: nat, tenant: string)
    requires Inv(w1) && Inv(w2) && Alike(w1, w2, op, tenant) && OwnStep(w1, w2, l, op, tenant) && l.Read?
    ensures Alike(Apply(w1, l), Apply(w2, l), op, tenant)
  {
    hide Inv;
    hide TablesOk;
    hide Apply;
    hide SameTenant;
    hide AfterRead;
    hide CarriesOwn;
    hide IdOf;
    hide SameAround;
    hide NewId;
    hide SameAhead;
    var o := w1.ops[op];
    InvTables(w1);
    ReadMoves(w1, l);
    ReadMoves(w2, l);
    ReadLeavesStores(w1, l);
    ReadLeavesStores(w2, l);
    SameReads(w1, w2, o, l, tenant);
    ReadCarriesOwn(w1, o, l.grant, l.dbOk, l.id, l.now);
    ReadLeadsTo(w1, o, l.grant, l.dbOk, l.id, l.now);
    AheadOfRead(w1, w2, Apply(w1, l).ops[op], l.id, tenant);
    StoresKept(w1, w2, Apply(w1, l), Apply(w2, l));
    TenantKept(w1, w2, Apply(w1, l), Apply(w2, l), tenant);
    AheadKept(w1, w2, Apply(w1, l), Apply(w2, l), Apply(w1, l).ops[op].pc);
  }

  lemma StoresKept(w1: World, w2: World, w1': World, w2': World)
    requires w1'.objects == w1.objects && w1'.sessions == w1.sessions
    requires w2'.objects == w2.objects && w2'.sessions == w2.sessions
    ensures KeepsSame(w1, w2, w1', w2')
  {
  }

  lemma SameReads(w1: World, w2: World, o: Op, l: Label, tenant: string)
    requires Inv(w1) && Inv(w2) && SameTenant(w1, w2, tenant) && UserOf(o.call, tenant) && l.Read?
    requires o.pc == Start || (o.pc == Reread && o.call.req.CompleteMultipart?)
    ensures AfterRead(w1.rows, o, l.grant, l.dbOk, l.id, l.now) == AfterRead(w2.rows, o, l.grant, l.dbOk, l.id, l.now)
  {
    hide Inv;
    hide SameFor;
    hide AfterRead;
    ReadsIgnoreOtherTenants(w1, w2, o, l.grant, l.dbOk, l.id, l.now);
  }

  lemma ReadLeavesStores(w: World, l: Label)
    requires Enabled(w, l) && (l.Read? || l.Begin? || l.Crash? || l.Sign? || l.Stat?)
    ensures var w' := Apply(w, l);
            w'.rows == w.rows && w'.objects == w.objects && w'.sessions == w.sessions
  {
    hide AfterRead;
    hide AfterStat;
  }

  lemma AheadOfRead(w1: World, w2: World, o: Op, id: string, tenant: string)
    requires SameTenant(w1, w2, tenant) && UserOf(o.call, tenant) && CarriesOwn(o) && NewId(w1, id) && NewId(w2, id)
    requires match o.pc
             case ToOpen(v) => v.id == id && IdOf(v.objectKey) == id
             case ToInsert(v) => v.id == id && IdOf(v.objectKey) == id && v.mode == Single
             case ToUndo(_) => false
             case ToFinish(v) => v.id in w1.rows && w1.rows[v.id] == v
             case ToStat(v) => v.id in w1.rows && w1.rows[v.id] == v
             case ToAbort(v) => v.id in w1.rows && w1.rows[v.id] == v
             case ToRemove(v) => v.id in w1.rows && w1.rows[v.id] == v
             case _ => true
    ensures SameAhead(w1, w2, o.pc)
  {
    hide IdOf;
    hide SameFor;
  }

  /** Steps that move neither world's tables keep the rest alike around the call. */
  lemma AheadKept(w1: World, w2: World, w1': World, w2': World, pc: Pc)
    requires KeepsSame(w1, w2, w1', w2') && SameAhead(w1, w2, pc) && w1'.rows == w1.rows && w2'.rows == w2.rows
    ensures SameAhead(w1', w2', pc)
  {
  }

  // ---- Storage steps ----

  lemma OpenAlike(w1: World, w2: World, l: Label, op: nat, tenant: string)
    requires Alike(w1, w2, op, tenant) && OwnStep(w1, w2, l, op, tenant) && l.OpenSession?
    ensures SameStep(w1, w2, Apply(w1, l), Apply(w2, l), op)
  {
    hide SameTenant;
    hide CarriesOwn;
    OpenMoves(w1, l);
    OpenMoves(w2, l);
  }

  lemma OpenMoves(w: World, l: Label)
    requires Enabled(w, l) && l.OpenSession?
    ensures var (w', v) := (Apply(w, l), w.ops[l.op].pc.v);
            && w'.rows == w.rows && w'.objects == w.objects
            && w'.sessions == (if l.outcome == NotDone then w.sessions
                               else w.sessions[l.uploadId := Session(v.objectKey, v.checksum, Open)])
            && l.op in w'.ops
            && w'.ops[l.op].pc == if l.outcome == Done then ToInsert(v.(uploadId := l.uploadId)) else Returned(Failed(Unavailable))
  {
  }

  /** Both worlds took the step alike, their tables apart from it unmoved. */
  ghost predicate SameStep(w1: World, w2: World, w1': World, w2': World, op: nat) {
    && w1'.rows == w1.rows && w2'.rows == w2.rows && KeepsSame(w1, w2, w1', w2')
    && op in w1'.ops && op in w2'.ops && w1'.ops[op].pc == w2'.ops[op].pc && SameAhead(w1', w2', w1'.ops[op].pc)
  }

  lemma CloseMoves(w: World, l: Label)
    requires Enabled(w, l) && (l.Undo? || l.AbortSession?)
    ensures var (w', o) := (Apply(w, l), w.ops[l.op]);
            && w'.rows == w.rows && w'.objects == w.objects
            && w'.sessions == Close(w, o.pc.v.uploadId, l.outcome, Aborted).sessions
            && l.op in w'.ops
            && w'.ops[l.op].pc == if l.Undo? then Returned(Failed(Internal)) else AfterRelease(o.call, o.pc.v, l.outcome, l.now)
  {
    hide AfterRelease;
  }

  lemma CloseSame(w1: World, w2: World, uploadId: string, outcome: Outcome, state: SessionState)
    requires SameAt(w1.sessions, w2.sessions, uploadId)
    ensures forall k :: SameAt(w1.sessions, w2.sessions, k) ==>
              SameAt(Close(w1, uploadId, outcome, state).sessions, Close(w2, uploadId, outcome, state).sessions, k)
  {
  }

  lemma NothingAhead(w1: World, w2: World, call: Call, v: Metadata, outcome: Outcome, now: int)
    ensures SameAhead(w1, w2, AfterRelease(call, v, outcome, now))
  {
    hide Planned;
  }

  lemma CloseAlike(w1: World, w2: World, l: Label, op: nat, tenant: string)
    requires Alike(w1, w2, op, tenant) && OwnStep(w1, w2, l, op, tenant) && (l.Undo? || l.AbortSession?)
    requires w1.ops[op].pc.v.mode == Multipart
    ensures SameStep(w1, w2, Apply(w1, l), Apply(w2, l), op)
  {
    hide SameTenant;
    hide CarriesOwn;
    hide AfterRelease;
    hide Close;
    CloseMoves(w1, l);
    CloseMoves(w2, l);
    hide Apply;
    var o := w1.ops[op];
    CloseSame(w1, w2, o.pc.v.uploadId, l.outcome, Aborted);
    if l.AbortSession? {
      NothingAhead(Apply(w1, l), Apply(w2, l), o.call, o.pc.v, l.outcome, l.now);
    }
  }

  lemma FinishMoves(w: World, l: Label)
    requires Enabled(w, l) && l.Finish?
    ensures var (w', v) := (Apply(w, l), w.ops[l.op].pc.v);
            var effective := l.outcome != NotDone && IsOpen(w, v.uploadId);
            && w'.rows == w.rows && w'.sessions == Close(w, v.uploadId, l.outcome, Completed).sessions
            && w'.objects == (if !effective then w.objects
                              else w.objects[v.objectKey := ObjectInfo(l.size, if l.keepsChecksum then w.sessions[v.uploadId].checksum else "")])
            && l.op in w'.ops
            && w'.ops[l.op].pc == if effective && l.outcome == Done then Reread else Returned(Failed(Unavailable))
  {
  }

  lemma FinishAlike(w1: World, w2: World, l: Label, op: nat, tenant: string)
    requires Alike(w1, w2, op, tenant) && OwnStep(w1, w2, l, op, tenant) && l.Finish?
    requires w1.ops[op].pc.v.mode == Multipart
    ensures SameStep(w1, w2, Apply(w1, l), Apply(w2, l), op)
  {
    hide SameTenant;
    hide CarriesOwn;
    hide Close;
    FinishMoves(w1, l);
    FinishMoves(w2, l);
    hide Apply;
    CloseSame(w1, w2, w1.ops[op].pc.v.uploadId, l.outcome, Completed);
  }

  lemma RemoveAlike(w1: World, w2: World, l: Label, op: nat, tenant: string)
    requires Alike(w1, w2, op, tenant) && OwnStep(w1, w2, l, op, tenant) && l.Remove?
    ensures SameStep(w1, w2, Apply(w1, l), Apply(w2, l), op)
  {
    hide Apply;
    hide SameTenant;
    hide CarriesOwn;
    hide AfterRelease;
    StoreStepIs(w1, l);
    StoreStepIs(w2, l);
    RemoveMoves(w1, l);
    RemoveMoves(w2, l);
    var o := w1.ops[op];
    NothingAhead(Apply(w1, l), Apply(w2, l), o.call, o.pc.v, l.outcome, l.now);
  }

  /** Stat and Sign change nothing in storage. */
  lemma LookAlike(w1: World, w2: World, l: Label, op: nat, tenant: string)
    requires Alike(w1, w2, op, tenant) && OwnStep(w1, w2, l, op, tenant) && (l.Stat? || l.Sign?)
    ensures SameStep(w1, w2, Apply(w1, l), Apply(w2, l), op)
  {
    hide Apply;
    hide SameTenant;
    hide CarriesOwn;
    hide Planned;
    hide CasVersion;
    StoreStepIs(w1, l);
    StoreStepIs(w2, l);
    ReadLeavesStores(w1, l);
    ReadLeavesStores(w2, l);
    StoresKept(w1, w2, Apply(w1, l), Apply(w2, l));
    hide KeepsSame;
  }

  lemma MultipartOps(w: World, op: nat)
    requires OpsOk(w) && op in w.ops
    ensures var pc := w.ops[op].pc; pc.ToUndo? || pc.ToAbort? || pc.ToFinish? ==> pc.v.mode == Multipart
  {
    hide Snapshot;
    hide Drafted;
    assert OpOk(w, w.ops[op]);
  }

  lemma StoreStepAlike(w1: World, w2: World, l: Label, op: nat, tenant: string)
    requires Inv(w1) && Alike(w1, w2, op, tenant) && OwnStep(w1, w2, l, op, tenant) && IsStoreStep(l)
    ensures Alike(Apply(w1, l), Apply(w2, l), op, tenant)
  {
    hide Inv;
    hide Apply;
    hide Enabled;
    hide SameTenant;
    hide CarriesOwn;
    hide SameAhead;
    hide KeepsSame;
    InvOps(w1);
    ActiveBefore(w1, l);
    MultipartOps(w1, op);
    hide OpsOk;
    match l {
      case OpenSession(_, _, _) => OpenAlike(w1, w2, l, op, tenant);
      case Undo(_, _) => UndoingNow(w1, l); CloseAlike(w1, w2, l, op, tenant);
      case AbortSession(_, _, _) => UndoingNow(w1, l); CloseAlike(w1, w2, l, op, tenant);
      case Finish(_, _, _, _) => UndoingNow(w1, l); FinishAlike(w1, w2, l, op, tenant);
      case Remove(_, _, _) => RemoveAlike(w1, w2, l, op, tenant);
      case _ => LookAlike(w1, w2, l, op, tenant);
    }
    TenantKept(w1, w2, Apply(w1, l), Apply(w2, l), tenant);
    StepCarriesOwn(w1, l);
    CallsKeepTheirRequest(w1, l);
    CallsKeepTheirRequest(w2, l);
  }

  lemma UndoingNow(w: World, l: Label)
    requires Enabled(w, l) && (l.Undo? || l.AbortSession? || l.Finish?)
    ensures w.ops[l.op].pc.ToUndo? || w.ops[l.op].pc.ToAbort? || w.ops[l.op].pc.ToFinish?
  {
  }

  // ---- Transactions ----

  lemma SameKeyTaken(w1: World, w2: World, v: Metadata)
    requires SameFor(w1.rows, w2.rows, v.tenant)
    ensures KeyTaken(w1.rows, v.tenant, v.application, v.idempotencyKey)
            <==> KeyTaken(w2.rows, v.tenant, v.application, v.idempotencyKey)
  {
    if KeyTaken(w1.rows, v.tenant, v.application, v.idempotencyKey) {
      var i :| i in w1.rows && HasKey(w1.rows[i], v.tenant, v.application, v.idempotencyKey);
      assert i in w2.rows && HasKey(w2.rows[i], v.tenant, v.application, v.idempotencyKey);
    }
    if KeyTaken(w2.rows, v.tenant, v.application, v.idempotencyKey) {
      var i :| i in w2.rows && HasKey(w2.rows[i], v.tenant, v.application, v.idempotencyKey);
      assert i in w1.rows && HasKey(w1.rows[i], v.tenant, v.application, v.idempotencyKey);
    }
  }

  /** Both worlds write row `v` of the tenant. */
  lemma RowWritten(w1: World, w2: World, w1': World, w2': World, v: Metadata, tenant: string)
    requires SameTenant(w1, w2, tenant) && v.tenant == tenant
    requires w1'.rows == w1.rows[v.id := v] && w2'.rows == w2.rows[v.id := v]
    requires w1'.objects == w1.objects && w1'.sessions == w1.sessions
    requires w2'.objects == w2.objects && w2'.sessions == w2.sessions
    requires SameAround(w1, w2, v)
    ensures SameTenant(w1', w2', tenant)
  {
    hide SameAt;
  }

  lemma CarriedTenant(o: Op, tenant: string)
    requires UserOf(o.call, tenant) && CarriesOwn(o) && Carried(o.pc).Some?
    ensures Carried(o.pc).value.tenant == tenant
  {
  }

  lemma InsertAlike(w1: World, w2: World, op: nat, tx: TxOutcome, tenant: string)
    requires Alike(w1, w2, op, tenant) && OwnStep(w1, w2, Insert(op, tx), op, tenant)
    ensures Alike(Apply(w1, Insert(op, tx)), Apply(w2, Insert(op, tx)), op, tenant)
  {
    hide Apply;
    hide SameFor;
    hide SameAt;
    hide KeyTaken;
    hide CarriesOwn;
    hide UserOf;
    var l := Insert(op, tx);
    var v := w1.ops[op].pc.v;
    CarriedTenant(w1.ops[op], tenant);
    assert SameAround(w1, w2, v) && v.id !in w1.rows && v.id !in w2.rows;
    SameKeyTaken(w1, w2, v);
    InsertMoves(w1, op, tx);
    InsertMoves(w2, op, tx);
    StepCarriesOwn(w1, l);
    StoresKept(w1, w2, Apply(w1, l), Apply(w2, l));
    if CanInsert(w1, v) && tx != RolledBack {
      RowWritten(w1, w2, Apply(w1, l), Apply(w2, l), v, tenant);
    } else {
      TenantKept(w1, w2, Apply(w1, l), Apply(w2, l), tenant);
    }
    hide SameTenant;
  }

  lemma SameApplies(w1: World, w2: World, op: nat, tx: TxOutcome, tenant: string)
    requires SameFor(w1.rows, w2.rows, tenant) && op in w1.ops && op in w2.ops && w1.ops[op] == w2.ops[op]
    requires w1.ops[op].pc.ToUpdate? && w1.ops[op].pc.v.tenant == tenant
    ensures Applies(w1, op, tx) <==> Applies(w2, op, tx)
    ensures Applies(w1, op, tx) ==> w1.rows[w1.ops[op].pc.v.id] == w2.rows[w1.ops[op].pc.v.id]
  {
  }

  /** The row written still has the object and the session of the one it replaces. */
  lemma WrittenRow(w1: World, w2: World, op: nat, tx: TxOutcome, tenant: string)
    requires Inv(w1) && SameTenant(w1, w2, tenant) && Applies(w1, op, tx) && w1.ops[op].pc.v.tenant == tenant
    ensures var Op(call, ToUpdate(base, v, expected, info)) := w1.ops[op];
            var row := v.(version := expected + 1);
            DbUpdate(w1.rows[v.id], v) == row && SameAround(w1, w2, row)
  {
    hide Inv;
    hide Facts;
    hide DbUpdate;
    hide Staged;
    hide StatusOk;
    hide SameFor;
    InvTables(w1);
    InvOps(w1);
    UpdatingIsStaged(w1, op);
    hide TablesOk;
    hide OpsOk;
    var Op(call, ToUpdate(base, v, expected, info)) := w1.ops[op];
    UpdatedRow(w1, call, base, v, expected, info);
    RowKeepsFacts(w1, call, base, v, expected, info);
    SameIdByFacts(w1.rows[v.id], v);
    hide SameAt;
  }

  lemma UpdateAlike(w1: World, w2: World, op: nat, tx: TxOutcome, tenant: string)
    requires Inv(w1) && Alike(w1, w2, op, tenant) && OwnStep(w1, w2, Update(op, tx), op, tenant)
    ensures Alike(Apply(w1, Update(op, tx)), Apply(w2, Update(op, tx)), op, tenant)
  {
    hide Inv;
    hide Apply;
    hide Applies;
    hide DbUpdate;
    hide SameTenant;
    hide SameAround;
    hide CarriesOwn;
    hide UserOf;
    var l := Update(op, tx);
    CarriedTenant(w1.ops[op], tenant);
    TenantRows(w1, w2, tenant);
    SameApplies(w1, w2, op, tx, tenant);
    UpdateMoves(w1, op, tx);
    UpdateMoves(w2, op, tx);
    StepCarriesOwn(w1, l);
    StoresKept(w1, w2, Apply(w1, l), Apply(w2, l));
    if Applies(w1, op, tx) {
      var done := w1.ops[op].pc.v.(version := w1.ops[op].pc.expected + 1);
      WrittenRow(w1, w2, op, tx, tenant);
      RowWritten(w1, w2, Apply(w1, l), Apply(w2, l), done, tenant);
      AroundKept(w1, w2, Apply(w1, l), Apply(w2, l), done);
    } else {
      TenantKept(w1, w2, Apply(w1, l), Apply(w2, l), tenant);
    }
    hide KeepsSame;
  }

  lemma TenantRows(w1: World, w2: World, tenant: string)
    requires SameTenant(w1, w2, tenant)
    ensures SameFor(w1.rows, w2.rows, tenant)
  {
  }

  // ---- Whole calls ----

  lemma BeginAlike(w1: World, w2: World, op: nat, call: Call, tenant: string)
    requires Alike(w1, w2, op, tenant) && OwnStep(w1, w2, Begin(op, call), op, tenant)
    ensures Alike(Apply(w1, Begin(op, call)), Apply(w2, Begin(op, call)), op, tenant)
  {
    hide SameTenant;
    TenantKept(w1, w2, Apply(w1, Begin(op, call)), Apply(w2, Begin(op, call)), tenant);
  }

  lemma CrashAlike(w1: World, w2: World, op: nat, tenant: string)
    requires Alike(w1, w2, op, tenant) && OwnStep(w1, w2, Crash(op), op, tenant)
    ensures Alike(Apply(w1, Crash(op)), Apply(w2, Crash(op)), op, tenant)
  {
    hide SameTenant;
    TenantKept(w1, w2, Apply(w1, Crash(op)), Apply(w2, Crash(op)), tenant);
  }

  lemma StepAlike(w1: World, w2: World, l: Label, op: nat, tenant: string)
    requires Inv(w1) && Inv(w2) && Alike(w1, w2, op, tenant) && OwnStep(w1, w2, l, op, tenant)
    ensures Alike(Apply(w1, l), Apply(w2, l), op, tenant)
  {
    hide Inv;
    hide Alike;
    hide OwnStep;
    hide Apply;
    hide Enabled;
    OwnStepIsOwn(w1, w2, l, op, tenant);
    match l
    case Begin(_, call) => BeginAlike(w1, w2, op, call, tenant);
    case Read(_, _, _, _, _) => ReadAlike(w1, w2, l, op, tenant);
    case Insert(_, tx) => InsertAlike(w1, w2, op, tx, tenant);
    case Update(_, tx) => UpdateAlike(w1, w2, op, tx, tenant);
    case Crash(_) => CrashAlike(w1, w2, op, tenant);
    case _ => StoreStepAlike(w1, w2, l, op, tenant);
  }

  lemma OwnStepIsOwn(w1: World, w2: World, l: Label, op: nat, tenant: string)
    requires OwnStep(w1, w2, l, op, tenant)
    ensures !l.Put? && l.op == op && Enabled(w1, l) && Enabled(w2, l)
  {
    hide NewId;
  }

  /** A whole call of a user, from its beginning or from wherever it stands, crashes included:
      over any two worlds that look the same to the user's tenant it goes the same way, to the
      same response, and leaves the tenant with the same rows, objects and sessions, if the ids
      it draws are new in both. */
  lemma {:induction false} CallsIgnoreOtherTenants(w1: World, w2: World, run: seq<Label>, op: nat, tenant: string)
    requires Reachable(w1) && Reachable(w2) && Alike(w1, w2, op, tenant) && SoloCall(w1, w2, run, op, tenant)
    ensures IsRun(w1, run) && IsRun(w2, run)
    ensures var (w1', w2') := (After(w1, run), After(w2, run));
            && SameTenant(w1', w2', tenant)
            && (op in w1'.ops <==> op in w2'.ops) && (op in w1'.ops ==> w1'.ops[op] == w2'.ops[op])
    decreases |run|
  {
    hide Reachable;
    hide Inv;
    hide SameTenant;
    hide SameAhead;
    hide OwnStep;
    hide Apply;
    hide Enabled;
    hide CarriesOwn;
    hide UserOf;
    if run != [] {
      ReachableInv(w1);
      ReachableInv(w2);
      OwnStepIsOwn(w1, w2, run[0], op, tenant);
      StepAlike(w1, w2, run[0], op, tenant);
      ReachableStep(w1, run[0]);
      ReachableStep(w2, run[0]);
      CallsIgnoreOtherTenants(Apply(w1, run[0]), Apply(w2, run[0]), run[1..], op, tenant);
    }
  }
}
