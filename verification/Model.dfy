/** The entities of the file service and the pure parts of its operations. */
module Model {
  import opened Basics
  import opened Text
  import opened Parts
  import opened Completion
  import opened ObjectKeys

  datatype Status = PendingUpload | Ready | Deleting | Deleted | Expired
  datatype ScanStatus = ScanPending | ScanClean | ScanInfected | ScanSkipped
  datatype UploadMode = Single | Multipart

  /** A row of the files table. */
  datatype Metadata = Metadata(
    id: string, tenant: string, application: string, owner: string, bucket: string, objectKey: string,
    filename: string, contentType: string, size: int, checksum: string, status: Status, scan: ScanStatus,
    idempotencyKey: string, mode: UploadMode, uploadId: string, partSize: int, partCount: int,
    expiresAt: Option<int>, version: int, createdAt: int, updatedAt: int, createdBy: string, updatedBy: string)

  /** A row of the outbox. The message has neither the session id nor the idempotency key. */
  datatype Event = FileStatusChanged(file: Metadata, actor: string, occurredAt: int)

  function Project(v: Metadata): Event {
    FileStatusChanged(v.(uploadId := "", idempotencyKey := ""), v.updatedBy, v.updatedAt)
  }

  /** The event tells the row as it stands, all but its session and its idempotency key, who
      changed it and when. */
  ghost predicate Tells(e: Event, row: Metadata) {
    var f := e.file;
    && f.id == row.id && f.tenant == row.tenant && f.application == row.application && f.owner == row.owner
    && f.bucket == row.bucket && f.objectKey == row.objectKey && f.filename == row.filename
    && f.contentType == row.contentType && f.size == row.size && f.checksum == row.checksum
    && f.status == row.status && f.scan == row.scan && f.mode == row.mode && f.partSize == row.partSize
    && f.partCount == row.partCount && f.expiresAt == row.expiresAt && f.version == row.version
    && f.createdAt == row.createdAt && f.updatedAt == row.updatedAt
    && f.createdBy == row.createdBy && f.updatedBy == row.updatedBy
    && f.uploadId == "" && f.idempotencyKey == ""
    && e.actor == row.updatedBy && e.occurredAt == row.updatedAt
  }

  /** There is just one such event. */
  lemma ProjectionTells(e: Event, row: Metadata)
    ensures Tells(e, row) <==> e == Project(row)
  {
  }

  datatype ObjectInfo = ObjectInfo(size: int, checksum: string)

  datatype Config = Config(storageEnabled: bool, maxUploadBytes: int, bucket: string, sessionTTL: int,
                           cleanupBatch: nat, scanRequired: bool)
  datatype Principal = Principal(id: string, isUser: bool, tenant: string)

  /** The answer of the application verifier. */
  datatype Grant = Granted | NotGranted | GrantUnavailable

  /** `mediaTypeOk` stands for the verdict of mime.ParseMediaType on `contentType`. */
  datatype Upload = Upload(tenant: string, application: string, filename: string, contentType: string,
                           mediaTypeOk: bool, size: Int64, checksum: string, key: string)
  datatype Target = Target(id: string, tenant: string, application: string)

  datatype Request =
    | InitiateSingle(upload: Upload)
    | InitiateMultipart(upload: Upload, partSize: Int64)
    | CompleteMultipart(target: Target, checksum: string, parts: seq<Part>, expected: int)
    | Complete(target: Target, checksum: string, expected: int)
    | Abort(target: Target, expected: int)
    | Report(target: Target, result: ScanStatus, expected: int)
    | Delete(target: Target, expected: int)
    | Download(target: Target)
    | AuthorizePart(target: Target, part: int)
    | Cleanup(id: string, before: int)

  /** A request together with its caller and the settings of the instance that serves it. */
  datatype Call = Call(caller: Option<Principal>, cfg: Config, req: Request)

  const CLEANER := "system:file-lifecycle"

  function Actor(call: Call): string {
    if call.req.Cleanup? then CLEANER
    else if call.caller.Some? then call.caller.value.id
    else ""
  }

  predicate TenantAllowed(caller: Principal, tenant: string) {
    caller.isUser ==> TrimSpace(caller.tenant) != "" && caller.tenant == TrimSpace(tenant)
  }

  function VerifyApplication(tenant: string, application: string, grant: Grant): Option<Error> {
    if TrimSpace(tenant) == "" || TrimSpace(application) == "" then Some(Invalid)
    else match grant
      case Granted => None
      case NotGranted => Some(Forbidden)
      case GrantUnavailable => Some(Unavailable)
  }

  /** The checks every operation on an existing file makes before it reads the row. */
  function Admission(call: Call, grant: Grant): Option<Error>
    requires !call.req.InitiateSingle? && !call.req.InitiateMultipart? && !call.req.Cleanup?
  {
    var t := call.req.target;
    if call.caller.None? then Some(Unauthorized)
    else if !TenantAllowed(call.caller.value, t.tenant) then Some(Forbidden)
    else if call.req.Report? && call.req.result != ScanClean && call.req.result != ScanInfected then Some(Invalid)
    else VerifyApplication(t.tenant, t.application, grant)
  }

  function Normalize(u: Upload): Upload {
    u.(tenant := TrimSpace(u.tenant), application := TrimSpace(u.application),
       filename := CleanFilename(u.filename), contentType := TrimSpace(u.contentType),
       checksum := Lower(TrimSpace(u.checksum)), key := TrimSpace(u.key))
  }

  /** The validation both kinds of initiation share; Ok holds the normalized upload. */
  function ValidateUpload(call: Call, upload: Upload, grant: Grant): Result<Upload> {
    var u := Normalize(upload);
    if u.tenant == "" || u.application == "" || u.filename == "" || u.filename == "." || u.key == ""
       || u.size <= 0 || !call.cfg.storageEnabled || u.size > call.cfg.maxUploadBytes then Err(Invalid)
    else if !u.mediaTypeOk then Err(Invalid)
    else if !ValidChecksum(u.checksum) then Err(Invalid)
    else if call.caller.None? then Err(Unauthorized)
    else if !TenantAllowed(call.caller.value, u.tenant) then Err(Forbidden)
    else match VerifyApplication(u.tenant, u.application, grant)
      case Some(e) => Err(e)
      case None => Ok(u)
  }

  function NewRow(call: Call, u: Upload, mode: UploadMode, partSize: int, partCount: int, id: string, now: int)
    : Metadata
  {
    Metadata(id, u.tenant, u.application, Actor(call), call.cfg.bucket,
             ObjectKey(u.tenant, u.application, id, u.filename), u.filename, u.contentType, u.size, u.checksum,
             PendingUpload, ScanPending, u.key, mode, "", partSize, partCount,
             Some(now + call.cfg.sessionTTL), 1, now, now, Actor(call), Actor(call))
  }

  /** Everything an initiation decides before it looks the key up: the row it would insert,
      apart from the session id that storage has yet to hand out. */
  function Draft(call: Call, grant: Grant, id: string, now: int): Result<Metadata>
    requires call.req.InitiateSingle? || call.req.InitiateMultipart?
  {
    if call.req.InitiateSingle? then
      match ValidateUpload(call, call.req.upload, grant)
      case Err(e) => Err(e)
      case Ok(u) => Ok(NewRow(call, u, Single, 0, 0, id, now))
    else
      var partSize := EffectivePartSize(call.req.partSize);
      if !LegalPartSize(partSize) || !CountAccepted(call.req.upload.size, partSize) then Err(Invalid)
      else
        var count := ComputedCount(call.req.upload.size, partSize);
        match ValidateUpload(call, call.req.upload, grant)
        case Err(e) => Err(e)
        case Ok(u) => Ok(NewRow(call, u, Multipart, partSize, Wrap32(count), id, now))
  }

  /** The row an initiation would insert, against the request. */
  lemma DraftHolds(call: Call, grant: Grant, id: string, now: int)
    requires call.req.InitiateSingle? || call.req.InitiateMultipart?
    requires Draft(call, grant, id, now).Ok?
    ensures call.caller.Some? && grant == Granted
    ensures var (d, u) := (Draft(call, grant, id, now).value, call.req.upload);
            && d.id == id && d.tenant == TrimSpace(u.tenant) && d.application == TrimSpace(u.application)
            && d.idempotencyKey == TrimSpace(u.key) && d.filename == CleanFilename(u.filename)
            && d.contentType == TrimSpace(u.contentType) && d.size == u.size && d.checksum == Lower(TrimSpace(u.checksum))
            && d.owner == d.createdBy == d.updatedBy == call.caller.value.id && d.bucket == call.cfg.bucket
            && d.expiresAt == Some(now + call.cfg.sessionTTL) && d.createdAt == d.updatedAt == now
            && d.status == PendingUpload && d.scan == ScanPending && d.version == 1
  {
    hide TrimSpace;
    hide Lower;
    hide CleanFilename;
    hide ObjectKey;
    hide ValidChecksum;
    hide ComputedCount;
    hide CountAccepted;
  }

  /** UPDATE files: the columns it writes come from `v`, the others stay, the version goes up. */
  function DbUpdate(row: Metadata, v: Metadata): Metadata {
    row.(status := v.status, scan := v.scan, checksum := v.checksum, size := v.size, mode := v.mode,
         uploadId := v.uploadId, partSize := v.partSize, partCount := v.partCount, expiresAt := v.expiresAt,
         version := row.version + 1, updatedAt := v.updatedAt, updatedBy := v.updatedBy)
  }

  /** The row as it was inserted: all that no operation is meant to change. */
  function Facts(v: Metadata): Metadata {
    v.(status := PendingUpload, scan := ScanPending, version := 1, updatedAt := v.createdAt, updatedBy := v.createdBy)
  }

  function Stage(call: Call, v: Metadata, status: Status, scan: ScanStatus, now: int): Metadata {
    v.(status := status, scan := scan, updatedAt := now, updatedBy := Actor(call))
  }

  predicate Matches(v: Metadata, checksum: string, info: ObjectInfo) {
    && info.size == v.size && Lower(TrimSpace(checksum)) == v.checksum
    && (info.checksum == "" || info.checksum == v.checksum)
  }

  predicate Downloadable(v: Metadata) {
    v.status == Ready && (v.scan == ScanClean || v.scan == ScanSkipped)
  }

  /** The row test of CompleteMultipartUpload, which compares a truncated length. */
  predicate MultipartOpen(req: Request, v: Metadata)
    requires req.CompleteMultipart?
  {
    && v.mode == Multipart && v.status == PendingUpload
    && Wrap32(|req.parts|) == v.partCount && req.expected == v.version
  }

  predicate DueForCleanup(v: Metadata, before: int) {
    v.status == PendingUpload && v.expiresAt.Some? && v.expiresAt.value <= before
  }

  function ReadyScan(call: Call): ScanStatus {
    if call.cfg.scanRequired then ScanPending else ScanSkipped
  }

  /** What a call would write over row `v`, given what Stat answered and the clock, if its row
      tests pass. Whether the write goes through is for the version test to decide. */
  function Planned(call: Call, v: Metadata, info: Option<ObjectInfo>, now: int): Option<Metadata> {
    match call.req
    case CompleteMultipart(_, checksum, _, expected) => PlannedCompletion(call, v, checksum, expected, info, now)
    case Complete(_, checksum, expected) => PlannedCompletion(call, v, checksum, expected, info, now)
    case Abort(_, expected) =>
      if v.mode != Multipart || v.status != PendingUpload || expected != v.version then None
      else Some(Stage(call, v, Deleted, v.scan, now))
    case Report(_, result, _) =>
      if v.status != Ready || v.scan != ScanPending || (result != ScanClean && result != ScanInfected) then None
      else Some(Stage(call, v, Ready, result, now))
    case Delete(_, expected) =>
      if v.status == Deleted || expected < 1 then None
      else Some(Stage(call, v, if v.status == Deleting then Deleted else Deleting, v.scan, now))
    case Cleanup(_, before) =>
      if !DueForCleanup(v, before) then None else Some(Stage(call, v, Expired, v.scan, now))
    case _ => None
  }

  function PlannedCompletion(call: Call, v: Metadata, checksum: string, expected: int, info: Option<ObjectInfo>, now: int)
    : Option<Metadata>
  {
    if v.status == Ready || expected < 1 || info.None? || !Matches(v, checksum, info.value) then None
    else Some(Stage(call, v, Ready, ReadyScan(call), now))
  }

  /** The version the write is conditional on: the caller's, except where the code uses the
      version it read (cleanup, and the second phase of a deletion). */
  function CasVersion(call: Call, v: Metadata): int {
    match call.req
    case CompleteMultipart(_, _, _, expected) => expected
    case Complete(_, _, expected) => expected
    case Abort(_, expected) => expected
    case Report(_, _, expected) => expected
    case Delete(_, expected) => if v.status == Deleting then v.version else expected
    case _ => v.version
  }

  /** A stored row belongs to the file the call names. */
  predicate Names(call: Call, v: Metadata) {
    match call.req
    case InitiateSingle(_) => false
    case InitiateMultipart(_, _) => false
    case Cleanup(id, _) => v.id == id
    case _ => v.id == call.req.target.id && v.tenant == call.req.target.tenant
              && v.application == call.req.target.application
  }

  /** No call changes a declared fact of a row it plans to write. */
  lemma PlanKeepsFacts(call: Call, v: Metadata, info: Option<ObjectInfo>, now: int)
    requires Planned(call, v, info, now).Some?
    ensures var p := Planned(call, v, info, now).value;
            && Facts(p) == Facts(v) && p.version == v.version
            && p.status != PendingUpload && p.updatedAt == now
            && (p.status == Expired ==> v.status == PendingUpload && p.scan == v.scan)
  {
  }

  /** Rewriting every column from a snapshot with the same facts changes no fact. */
  lemma UpdateFromSnapshot(row: Metadata, v: Metadata)
    requires Facts(row) == Facts(v)
    ensures DbUpdate(row, v) == v.(version := row.version + 1)
  {
    assert Facts(row).tenant == Facts(v).tenant;
  }
}
