/** What every operation answers and leaves in the stores, case by case, in terms of its
    arguments, the stores it finds and what its surroundings answer. Nothing here refers to the
    protocol's tests and plans; the service is proved to behave this way. */
module Answers {
  import opened Basics
  import opened Text
  import opened Parts
  import opened Completion
  import opened ObjectKeys
  import opened Model
  import opened Protocol
  import opened Stores

  datatype State = State(rows: map<string, Metadata>, outbox: seq<Event>, objects: map<string, ObjectInfo>,
                         sessions: map<string, Session>)

  /** What the surroundings of one call answer: the verifier, the database, the clock, fresh
      ids, object storage. */
  datatype Env = Env(
    grant: Grant, dbOk: bool, id: string, now: int,
    grantAgain: Grant, dbOkAgain: bool, later: int,
    open: Outcome, uploadId: string, undo: Outcome,
    finish: Outcome, size: int, keepsChecksum: bool,
    statOk: bool, release: Outcome, tx: TxFaults, tx2: TxFaults, signOk: bool)

  /** The row a call on an existing file gets to work on, or why it is turned away. `wellFormed`
      is false for a scan report that says neither clean nor infected. */
  function Gate(caller: Option<Principal>, t: Target, wellFormed: bool, grant: Grant, dbOk: bool, rows: map<string, Metadata>)
    : Result<Metadata>
  {
    if caller.None? then Err(Unauthorized)
    else if caller.value.isUser && (TrimSpace(caller.value.tenant) == "" || caller.value.tenant != TrimSpace(t.tenant))
    then Err(Forbidden)
    else if !wellFormed || TrimSpace(t.tenant) == "" || TrimSpace(t.application) == "" then Err(Invalid)
    else if grant == NotGranted then Err(Forbidden)
    else if grant == GrantUnavailable then Err(Unavailable)
    else if !dbOk then Err(Internal)
    else if t.id !in rows || rows[t.id].tenant != t.tenant || rows[t.id].application != t.application then Err(NotFound)
    else Ok(rows[t.id])
  }

  /** Only an authenticated caller, granted the application, of the file's own tenant if a user,
      gets through, and only to the row that has all three ids. */
  lemma GateOpensExactlyTo(caller: Option<Principal>, t: Target, grant: Grant, dbOk: bool, rows: map<string, Metadata>, v: Metadata)
    ensures Gate(caller, t, true, grant, dbOk, rows) == Ok(v) <==>
      && caller.Some? && grant == Granted && dbOk
      && TrimSpace(t.tenant) != "" && TrimSpace(t.application) != ""
      && (caller.value.isUser ==> TrimSpace(caller.value.tenant) != "" && caller.value.tenant == TrimSpace(t.tenant))
      && t.id in rows && rows[t.id] == v && v.tenant == t.tenant && v.application == t.application
  {
  }

  /** The next version of a row, by whom and when. */
  function Stamped(v: Metadata, status: Status, scan: ScanStatus, who: string, at: int): Metadata {
    v.(status := status, scan := scan, version := v.version + 1, updatedAt := at, updatedBy := who)
  }

  /** The transaction commits, reported or not. */
  predicate TakesEffect(f: TxFaults, current: bool) {
    current && f.begin && f.write && f.event && f.commit != RolledBack
  }

  /** The stores after a transaction that writes `row` if the version it expects is current. */
  function Write(s: State, f: TxFaults, current: bool, row: Metadata): State {
    if TakesEffect(f, current) then s.(rows := s.rows[row.id := row], outbox := s.outbox + [Project(row)]) else s
  }

  /** What is answered after it. */
  function Reply(f: TxFaults, current: bool, row: Metadata): Response {
    if !f.begin || !f.write then Failed(Internal)
    else if !current then Failed(StaleVersion)
    else if !f.event || f.commit != Committed then Failed(Internal)
    else Row(row)
  }

  /** A call on a session: an open one is closed unless the call fails outright. */
  function Closing(s: State, uploadId: string, outcome: Outcome, state: SessionState): State {
    if outcome != NotDone && uploadId in s.sessions && s.sessions[uploadId].state == Open
    then s.(sessions := s.sessions[uploadId := s.sessions[uploadId].(state := state)])
    else s
  }

  function Without(s: State, key: string, outcome: Outcome): State {
    if outcome == NotDone then s else s.(objects := s.objects - {key})
  }

  /** The object is removed, then the row becomes deleted. */
  ghost predicate RemovalAnswer(s: State, s': State, r: Response, v: Metadata, who: string, env: Env) {
    var gone := Without(s, v.objectKey, env.release);
    var done := Stamped(v, Deleted, v.scan, who, env.later);
    && (env.release != Done ==> r == Failed(Unavailable) && s' == gone)
    && (env.release == Done ==> r == Reply(env.tx2, true, done) && s' == Write(gone, env.tx2, true, done))
  }

  ghost predicate DeleteAnswer(s: State, s': State, r: Response, v: Metadata, who: string, expected: int, env: Env) {
    && (v.status == Deleted ==> r == Row(v) && s' == s)
    && (v.status != Deleted && expected < 1 ==> r == Failed(Invalid) && s' == s)
    && (v.status == Deleting && expected >= 1 ==> RemovalAnswer(s, s', r, v, who, env))
    && (v.status != Deleted && v.status != Deleting && expected >= 1 ==>
          var marked := Stamped(v, Deleting, v.scan, who, env.now);
          var answer := Reply(env.tx, expected == v.version, marked);
          && (answer.Failed? ==> r == answer && s' == Write(s, env.tx, expected == v.version, marked))
          && (answer.Row? ==> RemovalAnswer(Write(s, env.tx, true, marked), s', r, marked, who, env)))
  }

  ghost predicate CompletionAnswer(s: State, s': State, r: Response, v: Metadata, who: string, scanRequired: bool,
                                   checksum: string, expected: int, env: Env) {
    && (v.status == Ready ==> r == Row(v) && s' == s)
    && (v.status != Ready && expected < 1 ==> r == Failed(Invalid) && s' == s)
    && (v.status != Ready && expected >= 1 && (!env.statOk || v.objectKey !in s.objects) ==> r == Failed(Unavailable) && s' == s)
    && (v.status != Ready && expected >= 1 && env.statOk && v.objectKey in s.objects ==>
          var info := s.objects[v.objectKey];
          var agrees := && info.size == v.size && Lower(TrimSpace(checksum)) == v.checksum
                        && (info.checksum == "" || info.checksum == v.checksum);
          var done := Stamped(v, Ready, if scanRequired then ScanPending else ScanSkipped, who, env.later);
          && (!agrees ==> r == Failed(Conflict) && s' == s)
          && (agrees ==> r == Reply(env.tx, expected == v.version, done) && s' == Write(s, env.tx, expected == v.version, done)))
  }

  ghost predicate ReportAnswer(s: State, s': State, r: Response, v: Metadata, who: string, result: ScanStatus,
                               expected: int, env: Env) {
    var awaited := v.status == Ready && v.scan == ScanPending;
    var done := Stamped(v, Ready, result, who, env.now);
    && (!awaited ==> r == Failed(Conflict) && s' == s)
    && (awaited ==> r == Reply(env.tx, expected == v.version, done) && s' == Write(s, env.tx, expected == v.version, done))
  }

  ghost predicate AbortAnswer(s: State, s': State, r: Response, v: Metadata, who: string, expected: int, env: Env) {
    var abortable := v.mode == Multipart && v.status == PendingUpload && expected == v.version;
    var closed := Closing(s, v.uploadId, env.release, Aborted);
    var done := Stamped(v, Deleted, v.scan, who, env.later);
    && (v.status == Deleted ==> r == Row(v) && s' == s)
    && (v.status != Deleted && !abortable ==> r == Failed(Conflict) && s' == s)
    && (abortable && env.release != Done ==> r == Failed(Unavailable) && s' == closed)
    && (abortable && env.release == Done ==> r == Reply(env.tx, true, done) && s' == Write(closed, env.tx, true, done))
  }

  /** Storage once the parts of `v` are assembled: the session closed, the object there. */
  function Assemble(s: State, v: Metadata, env: Env): State {
    if env.finish != NotDone && v.uploadId in s.sessions && s.sessions[v.uploadId].state == Open then
      var info := ObjectInfo(env.size, if env.keepsChecksum then s.sessions[v.uploadId].checksum else "");
      Closing(s, v.uploadId, env.finish, Completed).(objects := s.objects[v.objectKey := info])
    else s
  }

  /** A multipart completion: the row tests, of which the length test compares a 32-bit cast, the
      part list, the assembly, and then CompleteUpload with checks and read of its own. */
  ghost predicate AssemblyAnswer(s: State, s': State, r: Response, wire: Option<seq<Part>>, v: Metadata,
                                 caller: Principal, scanRequired: bool, t: Target, checksum: string, parts: seq<Part>,
                                 expected: int, env: Env) {
    var waiting := v.mode == Multipart && v.status == PendingUpload && Wrap32(|parts|) == v.partCount && expected == v.version;
    && (!waiting ==> r == Failed(Conflict) && s' == s && wire == None)
    && (waiting && !GoodParts(parts, v.partCount) ==> r == Failed(Invalid) && s' == s && wire == None)
    && (waiting && GoodParts(parts, v.partCount) ==>
          && wire == Some(CleanAll(CompletionList(parts)))
          && FinishAnswer(s, s', r, v, caller, scanRequired, t, checksum, expected, env))
  }

  ghost predicate FinishAnswer(s: State, s': State, r: Response, v: Metadata, caller: Principal, scanRequired: bool, t: Target,
                               checksum: string, expected: int, env: Env) {
    var assembled := Assemble(s, v, env);
    var done := env.finish == Done && v.uploadId in s.sessions && s.sessions[v.uploadId].state == Open;
    var again := Gate(Some(caller), t, true, env.grantAgain, env.dbOkAgain, s.rows);
    && (!done ==> r == Failed(Unavailable) && s' == assembled)
    && (done && again.Err? ==> r == Failed(again.error) && s' == assembled)
    && (done && again.Ok? ==>
          CompletionAnswer(assembled, s', r, again.value, caller.id, scanRequired, checksum, expected, env))
  }

  /** Cleaning one listed upload: what storage holds of it is given back, then the row expires. */
  ghost predicate CleanAnswer(s: State, s': State, ok: bool, v: Metadata, env: Env) {
    var released := if v.mode == Multipart then Closing(s, v.uploadId, env.release, Aborted)
                    else Without(s, v.objectKey, env.release);
    var done := Stamped(v, Expired, v.scan, "system:file-lifecycle", env.later);
    && (env.release != Done ==> !ok && s' == released)
    && (env.release == Done ==> (ok <==> Reply(env.tx, true, done).Row?) && s' == Write(released, env.tx, true, done))
  }

  // ---- Initiation ----

  /** Why an initiation is refused before anything is looked up. */
  function Refusal(caller: Option<Principal>, cfg: Config, u: Upload, grant: Grant): Option<Error> {
    var tenant, checksum, name := TrimSpace(u.tenant), Lower(TrimSpace(u.checksum)), CleanFilename(u.filename);
    if tenant == "" || TrimSpace(u.application) == "" || name == "" || name == "." || TrimSpace(u.key) == ""
       || u.size <= 0 || !cfg.storageEnabled || u.size > cfg.maxUploadBytes then Some(Invalid)
    else if !u.mediaTypeOk then Some(Invalid)
    else if |checksum| != 64 || exists i :: 0 <= i < |checksum| && !('0' <= checksum[i] <= '9' || 'a' <= checksum[i] <= 'f')
    then Some(Invalid)
    else if caller.None? then Some(Unauthorized)
    else if caller.value.isUser && (TrimSpace(caller.value.tenant) == "" || caller.value.tenant != tenant) then Some(Forbidden)
    else if grant == NotGranted then Some(Forbidden)
    else if grant == GrantUnavailable then Some(Unavailable)
    else None
  }

  /** The row an initiation inserts. */
  function NewFile(who: string, cfg: Config, u: Upload, mode: UploadMode, partSize: int, partCount: int, uploadId: string,
                   id: string, now: int): Metadata {
    var tenant, application, name := TrimSpace(u.tenant), TrimSpace(u.application), CleanFilename(u.filename);
    Metadata(id, tenant, application, who, cfg.bucket, tenant + "/" + application + "/" + id + "/" + name, name,
             TrimSpace(u.contentType), u.size, Lower(TrimSpace(u.checksum)), PendingUpload, ScanPending,
             TrimSpace(u.key), mode, uploadId, partSize, partCount, Some(now + cfg.sessionTTL), 1, now, now, who, who)
  }

  /** Row `v` has the key the caller sent. */
  predicate HasRequestedKey(v: Metadata, u: Upload) {
    v.tenant == TrimSpace(u.tenant) && v.application == TrimSpace(u.application) && v.idempotencyKey == TrimSpace(u.key)
  }

  function Signed(v: Metadata, signOk: bool): Response {
    if signOk then Url(v) else Failed(Unavailable)
  }

  /** An admitted single initiation: the file that has the key, or a new one. */
  ghost predicate SingleAnswer(s: State, s': State, r: Response, u: Upload, new_: Metadata, env: Env) {
    && (!env.dbOk ==> r == Failed(Internal) && s' == s)
    && (env.dbOk ==> forall id :: id in s.rows && HasRequestedKey(s.rows[id], u) ==> r == Signed(s.rows[id], env.signOk) && s' == s)
    && (env.dbOk && (forall id :: id in s.rows ==> !HasRequestedKey(s.rows[id], u)) ==>
          var free := new_.id !in s.rows;
          && s' == Write(s, env.tx, free, new_)
          && r == if Reply(env.tx, free, new_).Row? then Signed(new_, env.signOk) else Failed(Internal))
  }

  /** The part size of a request: 8 MiB unless it names one. */
  function AskedPartSize(requested: Int64): Int64 {
    if requested == 0 then 8388608 else requested
  }

  /** The declared size is cut into 1 to 10000 parts of a legal size, 5 MiB to 5 GiB. */
  predicate PartsFit(size: int, partSize: int) {
    5242880 <= partSize <= 5368709120 && size > 0 && (size + partSize - 1) / partSize <= 10000
  }

  /** With a session open for the new upload. */
  function Waiting(s: State, v: Metadata): State {
    s.(sessions := s.sessions[v.uploadId := Session(v.objectKey, v.checksum, Open)])
  }

  /** A new multipart upload: session first, then the row; if that fails the session is given up. */
  ghost predicate OpenedAnswer(s: State, s': State, r: Response, new_: Metadata, env: Env) {
    var free := new_.id !in s.rows;
    var written := Write(Waiting(s, new_), env.tx, free, new_);
    && (env.open == NotDone ==> r == Failed(Unavailable) && s' == s)
    && (env.open == Lost ==> r == Failed(Unavailable) && s' == Waiting(s, new_))
    && (env.open == Done && Reply(env.tx, free, new_).Row? ==> r == Row(new_) && s' == written)
    && (env.open == Done && !Reply(env.tx, free, new_).Row? ==>
          r == Failed(Internal) && s' == Closing(written, new_.uploadId, env.undo, Aborted))
  }

  /** An admitted multipart initiation: the pending upload that has the key, or a new one. */
  ghost predicate MultipartAnswer(s: State, s': State, r: Response, u: Upload, new_: Metadata, env: Env) {
    && (!env.dbOk ==> r == Failed(Internal) && s' == s)
    && (env.dbOk ==> forall id :: id in s.rows && HasRequestedKey(s.rows[id], u) ==>
          && s' == s
          && r == if s.rows[id].mode == Multipart && s.rows[id].status == PendingUpload then Row(s.rows[id]) else Failed(Conflict))
    && (env.dbOk && (forall id :: id in s.rows ==> !HasRequestedKey(s.rows[id], u)) ==> OpenedAnswer(s, s', r, new_, env))
  }

  // ---- Why the service answers so ----

  /** The protocol's checks and read, against the gate. */
  lemma GateIs(call: Call, wellFormed: bool, grant: Grant, dbOk: bool, rows: map<string, Metadata>)
    requires !call.req.InitiateSingle? && !call.req.InitiateMultipart? && !call.req.Cleanup?
    requires wellFormed <==> (call.req.Report? ==> call.req.result == ScanClean || call.req.result == ScanInfected)
    ensures Gate(call.caller, call.req.target, wellFormed, grant, dbOk, rows) ==
            match Admission(call, grant)
            case Some(e) => Err(e)
            case None => if !dbOk then Err(Internal)
                         else match Find(rows, call.req.target) case Some(v) => Ok(v) case None => Err(NotFound)
  {
    hide TrimSpace;
  }

  /** `v` is the row with another status, scan status, time and author. */
  predicate Restamps(v: Metadata, base: Metadata) {
    v == base.(status := v.status, scan := v.scan, updatedAt := v.updatedAt, updatedBy := v.updatedBy)
  }

  lemma StampedUpdate(v: Metadata, base: Metadata)
    requires Restamps(v, base)
    ensures v.id == base.id && v.tenant == base.tenant && v.application == base.application && v.objectKey == base.objectKey
    ensures var row := Stamped(base, v.status, v.scan, v.updatedBy, v.updatedAt);
            DbUpdate(base, v) == row && v.(version := base.version + 1) == row && row.id == base.id
  {
  }

  lemma EffectIs(f: TxFaults, current: bool, row: Metadata)
    ensures current && Effect(f, current) != RolledBack <==> TakesEffect(f, current)
    ensures Reply(f, current, row) ==
            if Effect(f, current) == RolledBack then Failed(Internal)
            else if !current then Failed(StaleVersion)
            else if Effect(f, current) == Committed then Row(row) else Failed(Internal)
  {
  }

  lemma LowerHex(s: string)
    ensures ValidChecksum(Lower(s)) <==>
      |Lower(s)| == 64 && !exists i :: 0 <= i < |Lower(s)| && !('0' <= Lower(s)[i] <= '9' || 'a' <= Lower(s)[i] <= 'f')
  {
    forall i | 0 <= i < |Lower(s)|
      ensures IsHex(Lower(s)[i]) <==> '0' <= Lower(s)[i] <= '9' || 'a' <= Lower(s)[i] <= 'f'
    {
    }
  }

  lemma RefusalIs(call: Call, u: Upload, grant: Grant)
    ensures ValidateUpload(call, u, grant) ==
            match Refusal(call.caller, call.cfg, u, grant) case Some(e) => Err(e) case None => Ok(Normalize(u))
  {
    hide TrimSpace;
    hide Lower;
    hide CleanFilename;
    hide ValidChecksum;
    LowerHex(TrimSpace(u.checksum));
    TrimmedTwice(u.tenant);
    TrimmedTwice(u.application);
  }

  lemma TrimmedTwice(s: string)
    ensures TrimSpace(TrimSpace(s)) == TrimSpace(s)
  {
    TrimNormalizes(s, IsSpace);
    TrimNormalizes(TrimSpace(s), IsSpace);
  }

  lemma NewFileIs(call: Call, u: Upload, mode: UploadMode, partSize: int, partCount: int, id: string, now: int)
    requires (call.req.InitiateSingle? || call.req.InitiateMultipart?) && call.caller.Some?
    ensures NewRow(call, Normalize(u), mode, partSize, partCount, id, now)
            == NewFile(call.caller.value.id, call.cfg, u, mode, partSize, partCount, "", id, now)
  {
    hide TrimSpace;
    hide Lower;
    hide CleanFilename;
  }

  /** What the code computes on wrapping integers is the plain ceiling. */
  lemma CountIs(size: Int64, partSize: Int64)
    requires LegalPartSize(partSize)
    ensures CountAccepted(size, partSize) <==> size > 0 && (size + partSize - 1) / partSize <= 10000
    ensures CountAccepted(size, partSize) ==>
      ComputedCount(size, partSize) == Wrap32(ComputedCount(size, partSize)) == (size + partSize - 1) / partSize
  {
    hide CountAccepted;
    hide ComputedCount;
    hide Wrap32;
    var n := (size + partSize - 1) / partSize;
    QuotientBounds(size + partSize - 1, partSize);
    CountTestIsExact(size, partSize, n);
    if size > 0 && n < 1 {
      ScaleKeepsOrder(n, 0, partSize);
    }
  }

  lemma FitsAre(size: Int64, requested: Int64)
    ensures AskedPartSize(requested) == EffectivePartSize(requested)
    ensures var partSize := EffectivePartSize(requested);
            && (LegalPartSize(partSize) <==> 5242880 <= partSize <= 5368709120)
            && (LegalPartSize(partSize) ==> (PartsFit(size, partSize) <==> CountAccepted(size, partSize)))
            && (PartsFit(size, partSize) ==>
                  LegalPartSize(partSize) && Wrap32(ComputedCount(size, partSize)) == (size + partSize - 1) / partSize)
  {
    hide ComputedCount;
    hide Wrap32;
    if LegalPartSize(EffectivePartSize(requested)) {
      CountIs(size, EffectivePartSize(requested));
    }
  }

  lemma RefusalNeedsCaller(call: Call, u: Upload, grant: Grant)
    ensures Refusal(call.caller, call.cfg, u, grant).None? ==> call.caller.Some? && grant == Granted
  {
    hide TrimSpace;
    hide Lower;
    hide CleanFilename;
  }

  lemma SingleWithoutDatabase(s: State, u: Upload, new_: Metadata, env: Env)
    requires !env.dbOk
    ensures SingleAnswer(s, s, Failed(Internal), u, new_, env)
  {
  }

  lemma SingleFound(s: State, u: Upload, found: Metadata, new_: Metadata, env: Env)
    requires env.dbOk && exists id :: id in s.rows && HasRequestedKey(s.rows[id], u)
    requires forall id :: id in s.rows && HasRequestedKey(s.rows[id], u) ==> s.rows[id] == found
    ensures SingleAnswer(s, s, Signed(found, env.signOk), u, new_, env)
  {
    hide HasRequestedKey;
  }

  lemma SingleInserted(s: State, u: Upload, new_: Metadata, env: Env)
    requires env.dbOk && forall id :: id in s.rows ==> !HasRequestedKey(s.rows[id], u)
    ensures var free := new_.id !in s.rows;
            SingleAnswer(s, Write(s, env.tx, free, new_),
                         if Reply(env.tx, free, new_).Row? then Signed(new_, env.signOk) else Failed(Internal), u, new_, env)
  {
    hide HasRequestedKey;
    hide Write;
    hide Reply;
  }

  lemma NewFileHasKey(who: string, cfg: Config, u: Upload, mode: UploadMode, partSize: int, partCount: int, uploadId: string,
                      id: string, now: int)
    ensures var v := NewFile(who, cfg, u, mode, partSize, partCount, uploadId, id, now);
            && HasRequestedKey(v, u) && v.mode == mode && v.size == u.size && v.checksum == Lower(TrimSpace(u.checksum))
  {
    hide TrimSpace;
    hide Lower;
    hide CleanFilename;
  }

  lemma SessionAdded(who: string, cfg: Config, u: Upload, partSize: int, partCount: int, uploadId: string, id: string, now: int)
    ensures NewFile(who, cfg, u, Multipart, partSize, partCount, "", id, now).(uploadId := uploadId)
            == NewFile(who, cfg, u, Multipart, partSize, partCount, uploadId, id, now)
  {
    hide TrimSpace;
    hide Lower;
    hide CleanFilename;
  }

  /** A URL is for a file with the key that was sent, and one for a new file for what was declared. */
  lemma SingleUrl(s: State, s': State, r: Response, u: Upload, new_: Metadata, env: Env)
    requires SingleAnswer(s, s', r, u, new_, env) && HasRequestedKey(new_, u)
    requires forall id :: id in s.rows ==> s.rows[id].id == id
    ensures r.Url? ==> HasRequestedKey(r.file, u)
    ensures r.Url? && r.file.id !in s.rows ==> r.file == new_ && new_.id in s'.rows && s'.rows[new_.id] == new_
  {
    if id :| id in s.rows && HasRequestedKey(s.rows[id], u) {
    }
  }

  /** Where an initiation stands after its checks and its lookup. */
  lemma SingleRead(call: Call, rows: map<string, Metadata>, env: Env)
    requires call.req.InitiateSingle?
    ensures var u := call.req.upload;
            AfterRead(rows, Op(call, Start), env.grant, env.dbOk, env.id, env.now) ==
            match Refusal(call.caller, call.cfg, u, env.grant)
            case Some(e) => Returned(Failed(e))
            case None =>
              if !env.dbOk then Returned(Failed(Internal))
              else
                var v := NewFile(if call.caller.Some? then call.caller.value.id else "", call.cfg, u, Single, 0, 0, "", env.id, env.now);
                match FindByKey(rows, v.tenant, v.application, v.idempotencyKey)
                case Some(f) => ToSign(f)
                case None => ToInsert(v)
  {
    hide ValidateUpload;
    hide FindByKey;
    hide Refusal;
    hide NewFile;
    hide NewRow;
    hide Normalize;
    RefusalIs(call, call.req.upload, env.grant);
    RefusalNeedsCaller(call, call.req.upload, env.grant);
    if call.caller.Some? {
      NewFileIs(call, call.req.upload, Single, 0, 0, env.id, env.now);
    }
  }

  lemma MultipartRead(call: Call, rows: map<string, Metadata>, env: Env)
    requires call.req.InitiateMultipart?
    ensures var (u, size) := (call.req.upload, AskedPartSize(call.req.partSize));
            AfterRead(rows, Op(call, Start), env.grant, env.dbOk, env.id, env.now) ==
            if !PartsFit(u.size, size) then Returned(Failed(Invalid))
            else match Refusal(call.caller, call.cfg, u, env.grant)
              case Some(e) => Returned(Failed(e))
              case None =>
                if !env.dbOk then Returned(Failed(Internal))
                else
                  var v := NewFile(if call.caller.Some? then call.caller.value.id else "", call.cfg, u, Multipart, size,
                                   (u.size + size - 1) / size, "", env.id, env.now);
                  match FindByKey(rows, v.tenant, v.application, v.idempotencyKey)
                  case Some(f) => Returned(if f.mode != Multipart || f.status != PendingUpload then Failed(Conflict) else Row(f))
                  case None => ToOpen(v)
  {
    hide ValidateUpload;
    hide FindByKey;
    hide Refusal;
    hide NewFile;
    hide NewRow;
    hide Normalize;
    hide ComputedCount;
    hide CountAccepted;
    hide Wrap32;
    var (u, size) := (call.req.upload, AskedPartSize(call.req.partSize));
    FitsAre(u.size, call.req.partSize);
    RefusalIs(call, u, env.grant);
    RefusalNeedsCaller(call, u, env.grant);
    if call.caller.Some? && PartsFit(u.size, size) {
      NewFileIs(call, u, Multipart, size, Wrap32(ComputedCount(u.size, size)), env.id, env.now);
    }
  }
}
