/** The service as a state machine: any number of calls in flight, each a sequence of atomic
    steps on the shared table, outbox and object store, each step able to fail. */
module Protocol {
  import opened Basics
  import opened Completion
  import opened ObjectKeys
  import opened Model

  datatype SessionState = Open | Completed | Aborted
  datatype Session = Session(key: string, checksum: string, state: SessionState)

  /** One committed row change: the call, what Stat had answered, the version of the snapshot
      the change was computed from (0 for an insert), and the row as it then stood. */
  datatype Commit = Commit(call: Call, info: Option<ObjectInfo>, seen: nat, row: Metadata)

  datatype Response = Row(file: Metadata) | Url(file: Metadata) | Failed(error: Error)

  /** Where a call stands. The row it carries is a local copy. */
  datatype Pc =
    | Start
    | ToOpen(v: Metadata)                 // before InitiateMultipart
    | ToInsert(v: Metadata)               // before the insert transaction
    | ToUndo(v: Metadata)                 // before aborting its own session
    | ToFinish(v: Metadata)               // before CompleteMultipart
    | Reread                              // parts assembled, about to run CompleteUpload
    | ToStat(v: Metadata)
    | ToAbort(v: Metadata)
    | ToRemove(v: Metadata)               // before storage.Delete
    | ToUpdate(base: Metadata, v: Metadata, expected: int, info: Option<ObjectInfo>)
    | ToSign(v: Metadata)
    | Returned(response: Response)

  datatype Op = Op(call: Call, pc: Pc)

  /** `history` and `log` record the commits, per file and overall; no step reads them. */
  datatype World = World(
    rows: map<string, Metadata>, outbox: seq<Event>, objects: map<string, ObjectInfo>,
    sessions: map<string, Session>, ops: map<nat, Op>,
    history: map<string, seq<Commit>>, log: seq<Commit>)

  const EMPTY := World(map[], [], map[], map[], map[], map[], [])

  /** A storage call is done, took effect although an error came back, or failed outright. */
  datatype Outcome = Done | Lost | NotDone

  /** A transaction commits, commits although an error is reported, or is rolled back. */
  datatype TxOutcome = Committed | CommitLost | RolledBack

  datatype Label =
    | Begin(op: nat, call: Call)
    | Read(op: nat, grant: Grant, dbOk: bool, id: string, now: int)
    | OpenSession(op: nat, outcome: Outcome, uploadId: string)
    | Insert(op: nat, tx: TxOutcome)
    | Undo(op: nat, outcome: Outcome)
    | Finish(op: nat, outcome: Outcome, size: int, keepsChecksum: bool)
    | Stat(op: nat, ok: bool, now: int)
    | AbortSession(op: nat, outcome: Outcome, now: int)
    | Remove(op: nat, outcome: Outcome, now: int)
    | Update(op: nat, tx: TxOutcome)
    | Sign(op: nat, ok: bool)
    | Crash(op: nat)
    | Put(id: string)                     // a client upload through a signed URL

  /** SELECT ... WHERE id=? AND tenant_id=? AND application_id=? */
  function Find(rows: map<string, Metadata>, t: Target): Option<Metadata> {
    if t.id in rows && rows[t.id].tenant == t.tenant && rows[t.id].application == t.application
    then Some(rows[t.id]) else None
  }

  predicate HasKey(v: Metadata, tenant: string, application: string, key: string) {
    v.tenant == tenant && v.application == application && v.idempotencyKey == key
  }

  ghost predicate KeyTaken(rows: map<string, Metadata>, tenant: string, application: string, key: string) {
    exists id :: id in rows && HasKey(rows[id], tenant, application, key)
  }

  /** SELECT ... WHERE tenant_id=? AND application_id=? AND idempotency_key=? */
  ghost function FindByKey(rows: map<string, Metadata>, tenant: string, application: string, key: string): Option<Metadata> {
    if KeyTaken(rows, tenant, application, key) then
      var id :| id in rows && HasKey(rows[id], tenant, application, key);
      Some(rows[id])
    else None
  }

  /** What CompleteUpload does with the row it reads. */
  function AfterCompleteGet(v: Metadata, expected: int): Pc {
    if v.status == Ready then Returned(Row(v))
    else if expected < 1 then Returned(Failed(Invalid))
    else ToStat(v)
  }

  /** What each operation does with the row it reads. */
  function AfterGet(call: Call, v: Metadata, now: int): Pc
    requires call.req.CompleteMultipart? || call.req.Complete? || call.req.Abort? || call.req.Report?
             || call.req.Delete? || call.req.Download? || call.req.AuthorizePart?
  {
    match call.req
    case CompleteMultipart(_, _, parts, _) =>
      if !MultipartOpen(call.req, v) then Returned(Failed(Conflict))
      else if !Acceptable(parts, v.partCount) then Returned(Failed(Invalid))
      else ToFinish(v)
    case Complete(_, _, expected) => AfterCompleteGet(v, expected)
    case Abort(_, expected) =>
      if v.status == Deleted then Returned(Row(v))
      else if Planned(call, v, None, now).None? then Returned(Failed(Conflict))
      else ToAbort(v)
    case Report(_, _, expected) =>
      (match Planned(call, v, None, now)
       case None => Returned(Failed(Conflict))
       case Some(p) => ToUpdate(v, p, expected, None))
    case Delete(_, expected) =>
      if v.status == Deleted then Returned(Row(v))
      else if expected < 1 then Returned(Failed(Invalid))
      else if v.status == Deleting then ToRemove(v)
      else ToUpdate(v, Stage(call, v, Deleting, v.scan, now), expected, None)
    case Download(_) => if Downloadable(v) then ToSign(v) else Returned(Failed(Conflict))
    case AuthorizePart(_, part) =>
      if v.status == PendingUpload && v.mode == Multipart && 1 <= part <= v.partCount
         && v.expiresAt.Some? && now < v.expiresAt.value
      then ToSign(v) else Returned(Failed(Conflict))
  }

  ghost function InitiateRead(rows: map<string, Metadata>, call: Call, grant: Grant, dbOk: bool, id: string, now: int): Pc
    requires call.req.InitiateSingle? || call.req.InitiateMultipart?
  {
    match Draft(call, grant, id, now)
    case Err(e) => Returned(Failed(e))
    case Ok(d) =>
      if !dbOk then Returned(Failed(Internal))
      else match FindByKey(rows, d.tenant, d.application, d.idempotencyKey)
        case Some(v) =>
          if call.req.InitiateSingle? then ToSign(v)
          else if v.mode != Multipart || v.status != PendingUpload then Returned(Failed(Conflict))
          else Returned(Row(v))
        case None => if call.req.InitiateSingle? then ToInsert(d) else ToOpen(d)
  }

  ghost function AfterRead(rows: map<string, Metadata>, o: Op, grant: Grant, dbOk: bool, id: string, now: int): Pc
    requires o.pc == Start || (o.pc == Reread && o.call.req.CompleteMultipart?)
  {
    var req := o.call.req;
    if req.InitiateSingle? || req.InitiateMultipart? then InitiateRead(rows, o.call, grant, dbOk, id, now)
    else if req.Cleanup? then
      if !dbOk then Returned(Failed(Internal))
      else if req.id !in rows || !DueForCleanup(rows[req.id], req.before) then Returned(Failed(NotFound))
      else if rows[req.id].mode == Multipart then ToAbort(rows[req.id])
      else ToRemove(rows[req.id])
    else match Admission(o.call, grant)
      case Some(e) => Returned(Failed(e))
      case None =>
        if !dbOk then Returned(Failed(Internal))
        else match Find(rows, req.target)
          case None => Returned(Failed(NotFound))
          case Some(v) => if o.pc == Reread then AfterCompleteGet(v, req.expected) else AfterGet(o.call, v, now)
  }

  ghost predicate Enabled(w: World, l: Label) {
    match l
    case Begin(op, _) => op !in w.ops
    case Read(op, _, _, id, _) =>
      op in w.ops && IsUuid(id)
      && (w.ops[op].pc == Start || (w.ops[op].pc == Reread && w.ops[op].call.req.CompleteMultipart?))
    case OpenSession(op, _, uploadId) => op in w.ops && w.ops[op].pc.ToOpen? && uploadId !in w.sessions
    case Insert(op, _) => op in w.ops && w.ops[op].pc.ToInsert?
    case Undo(op, _) => op in w.ops && w.ops[op].pc.ToUndo?
    case Finish(op, _, _, _) => op in w.ops && w.ops[op].pc.ToFinish?
    case Stat(op, _, _) => op in w.ops && w.ops[op].pc.ToStat?
    case AbortSession(op, _, _) => op in w.ops && w.ops[op].pc.ToAbort?
    case Remove(op, _, _) => op in w.ops && w.ops[op].pc.ToRemove?
    case Update(op, _) => op in w.ops && w.ops[op].pc.ToUpdate?
    case Sign(op, _) => op in w.ops && w.ops[op].pc.ToSign?
    case Crash(op) => op in w.ops
    case Put(id) => id in w.rows
  }

  function Goto(w: World, op: nat, pc: Pc): World
    requires op in w.ops
  {
    w.(ops := w.ops[op := w.ops[op].(pc := pc)])
  }

  predicate IsOpen(w: World, uploadId: string) {
    uploadId in w.sessions && w.sessions[uploadId].state == Open
  }

  /** A session closes once and never reopens; calls on a closed one have no effect. */
  function Close(w: World, uploadId: string, outcome: Outcome, state: SessionState): World {
    if outcome == NotDone || !IsOpen(w, uploadId) then w
    else w.(sessions := w.sessions[uploadId := w.sessions[uploadId].(state := state)])
  }

  ghost predicate CanInsert(w: World, v: Metadata) {
    v.id !in w.rows && !KeyTaken(w.rows, v.tenant, v.application, v.idempotencyKey)
  }

  predicate CanUpdate(w: World, v: Metadata, expected: int) {
    && v.id in w.rows && w.rows[v.id].tenant == v.tenant && w.rows[v.id].application == v.application
    && w.rows[v.id].version == expected
  }

  function Past(w: World, id: string): seq<Commit> {
    if id in w.history then w.history[id] else []
  }

  /** The insert transaction: the row and its event, together. */
  function InsertRow(w: World, call: Call, v: Metadata): World {
    var c := Commit(call, None, 0, v);
    w.(rows := w.rows[v.id := v], outbox := w.outbox + [Project(v)],
       history := w.history[v.id := [c]], log := w.log + [c])
  }

  /** The update transaction: the row and its event, together. The row is written column by
      column; the event is built from the local copy. */
  function UpdateRow(w: World, call: Call, base: Metadata, v: Metadata, expected: int, info: Option<ObjectInfo>): World
    requires CanUpdate(w, v, expected)
  {
    var row := DbUpdate(w.rows[v.id], v);
    var c := Commit(call, info, if base.version < 0 then 0 else base.version, row);
    w.(rows := w.rows[v.id := row], outbox := w.outbox + [Project(v.(version := expected + 1))],
       history := w.history[v.id := Past(w, v.id) + [c]], log := w.log + [c])
  }

  ghost function DoInsert(w: World, op: nat, tx: TxOutcome): World
    requires op in w.ops && w.ops[op].pc.ToInsert?
  {
    var Op(call, pc) := w.ops[op];
    var applied := CanInsert(w, pc.v) && tx != RolledBack;
    var w1 := if applied then InsertRow(w, call, pc.v) else w;
    Goto(w1, op,
         if applied && tx == Committed then (if pc.v.mode == Single then ToSign(pc.v) else Returned(Row(pc.v)))
         else if pc.v.mode == Single then Returned(Failed(Internal))
         else ToUndo(pc.v))
  }

  /** Whether the update transaction of `op` would take effect. */
  predicate Applies(w: World, op: nat, tx: TxOutcome) {
    op in w.ops && w.ops[op].pc.ToUpdate? && CanUpdate(w, w.ops[op].pc.v, w.ops[op].pc.expected) && tx != RolledBack
  }

  function DoUpdate(w: World, op: nat, tx: TxOutcome): World
    requires op in w.ops && w.ops[op].pc.ToUpdate?
  {
    var Op(call, ToUpdate(base, v, expected, info)) := w.ops[op];
    if Applies(w, op, tx) then
      var done := v.(version := expected + 1);
      Goto(UpdateRow(w, call, base, v, expected, info), op,
           if tx != Committed then Returned(Failed(Internal))
           else if call.req.Delete? && v.status == Deleting then ToRemove(done)
           else Returned(Row(done)))
    else Goto(w, op, Returned(Failed(if tx == RolledBack then Internal else StaleVersion)))
  }

  function AfterStat(call: Call, v: Metadata, objects: map<string, ObjectInfo>, ok: bool, now: int): Pc {
    if !ok || v.objectKey !in objects then Returned(Failed(Unavailable))
    else match Planned(call, v, Some(objects[v.objectKey]), now)
      case None => Returned(Failed(Conflict))
      case Some(p) => ToUpdate(v, p, CasVersion(call, v), Some(objects[v.objectKey]))
  }

  /** After a storage call on behalf of an abort, a cleanup or a deletion. */
  function AfterRelease(call: Call, v: Metadata, outcome: Outcome, now: int): Pc {
    if outcome != Done then Returned(Failed(Unavailable))
    else match Planned(call, v, None, now)
      case None => Returned(Failed(Conflict))
      case Some(p) => ToUpdate(v, p, CasVersion(call, v), None)
  }

  /** Assembling the parts closes the session and makes the object; its size is whatever the
      client uploaded, its checksum metadata what the session was opened with, or none. */
  function DoFinish(w: World, op: nat, outcome: Outcome, size: int, keepsChecksum: bool): World
    requires op in w.ops && w.ops[op].pc.ToFinish?
  {
    var v := w.ops[op].pc.v;
    if outcome == NotDone || !IsOpen(w, v.uploadId) then Goto(w, op, Returned(Failed(Unavailable)))
    else
      var info := ObjectInfo(size, if keepsChecksum then w.sessions[v.uploadId].checksum else "");
      Goto(Close(w, v.uploadId, outcome, Completed).(objects := w.objects[v.objectKey := info]), op,
           if outcome == Done then Reread else Returned(Failed(Unavailable)))
  }

  ghost function Apply(w: World, l: Label): World
    requires Enabled(w, l)
  {
    match l
    case Begin(op, call) => w.(ops := w.ops[op := Op(call, Start)])
    case Read(op, grant, dbOk, id, now) => Goto(w, op, AfterRead(w.rows, w.ops[op], grant, dbOk, id, now))
    case OpenSession(op, outcome, uploadId) =>
      var v := w.ops[op].pc.v;
      var w1 := if outcome == NotDone then w
                else w.(sessions := w.sessions[uploadId := Session(v.objectKey, v.checksum, Open)]);
      Goto(w1, op, if outcome == Done then ToInsert(v.(uploadId := uploadId)) else Returned(Failed(Unavailable)))
    case Insert(op, tx) => DoInsert(w, op, tx)
    case Undo(op, outcome) => Goto(Close(w, w.ops[op].pc.v.uploadId, outcome, Aborted), op, Returned(Failed(Internal)))
    case Finish(op, outcome, size, keepsChecksum) => DoFinish(w, op, outcome, size, keepsChecksum)
    case Stat(op, ok, now) =>
      Goto(w, op, AfterStat(w.ops[op].call, w.ops[op].pc.v, w.objects, ok, now))
    case AbortSession(op, outcome, now) =>
      var v := w.ops[op].pc.v;
      Goto(Close(w, v.uploadId, outcome, Aborted), op, AfterRelease(w.ops[op].call, v, outcome, now))
    case Remove(op, outcome, now) =>
      var v := w.ops[op].pc.v;
      var w1 := if outcome == NotDone then w else w.(objects := w.objects - {v.objectKey});
      Goto(w1, op, AfterRelease(w.ops[op].call, v, outcome, now))
    case Update(op, tx) => DoUpdate(w, op, tx)
    case Sign(op, ok) =>
      Goto(w, op, Returned(if ok then Url(w.ops[op].pc.v) else Failed(Unavailable)))
    case Crash(op) => w.(ops := w.ops - {op})
    case Put(id) =>
      var v := w.rows[id];
      w.(objects := w.objects[v.objectKey := ObjectInfo(v.size, v.checksum)])
  }

  /** Runs. */
  ghost predicate IsRun(w: World, run: seq<Label>)
    decreases |run|
  {
    run == [] || (Enabled(w, run[0]) && IsRun(Apply(w, run[0]), run[1..]))
  }

  ghost function After(w: World, run: seq<Label>): World
    requires IsRun(w, run)
    decreases |run|
  {
    if run == [] then w else After(Apply(w, run[0]), run[1..])
  }
}
