/** Runs built step by step around one small file: what its calls do when every answer is a
    good one. */
module Scenarios {
  import opened Basics
  import opened Text
  import opened Parts
  import opened ObjectKeys
  import opened Model
  import opened Protocol
  import opened Invariants
  import opened History

  ghost predicate Reaches(w: World, w': World) {
    exists run :: IsRun(w, run) && After(w, run) == w'
  }

  lemma Stays(w: World)
    ensures Reaches(w, w)
  {
    assert IsRun(w, []) && After(w, []) == w;
  }

  lemma Onward(w: World, w1: World, l: Label)
    requires Reaches(w, w1) && Enabled(w1, l)
    ensures Reaches(w, Apply(w1, l))
  {
    hide Enabled;
    hide Apply;
    var run :| IsRun(w, run) && After(w, run) == w1;
    Snoc(w, run, l);
  }

  lemma Joins(w: World, w1: World, w2: World)
    requires Reaches(w, w1) && Reaches(w1, w2)
    ensures Reaches(w, w2)
  {
    var first :| IsRun(w, first) && After(w, first) == w1;
    var second :| IsRun(w1, second) && After(w1, second) == w2;
    RunsCompose(w, first, second);
  }

  lemma ReachableOnward(w: World, w1: World)
    requires Reachable(w) && Reaches(w, w1)
    ensures Reachable(w1)
  {
    var run :| IsRun(w, run) && After(w, run) == w1;
    ReachableAfter(w, run);
  }

  // ---- Pieces of calls, in any state ----

  /** A call begins and reads. */
  lemma Asks(w: World, op: nat, call: Call, uuid: string, now: int) returns (w': World)
    requires op !in w.ops && IsUuid(uuid)
    ensures Reaches(w, w')
    ensures w' == w.(ops := w.ops[op := Op(call, AfterRead(w.rows, Op(call, Start), Granted, true, uuid, now))])
  {
    hide AfterRead;
    var w1 := Apply(w, Begin(op, call));
    Stays(w);
    Onward(w, w, Begin(op, call));
    var l := Read(op, Granted, true, uuid, now);
    Onward(w, w1, l);
    w' := Apply(w1, l);
    var o := Op(call, AfterRead(w.rows, Op(call, Start), Granted, true, uuid, now));
    assert w.ops[op := Op(call, Start)][op := o] == w.ops[op := o];
  }

  /** Its stat is answered. */
  lemma Stats(w: World, op: nat, now: int) returns (w': World)
    requires op in w.ops && w.ops[op].pc.ToStat?
    ensures Reaches(w, w')
    ensures w' == Goto(w, op, AfterStat(w.ops[op].call, w.ops[op].pc.v, w.objects, true, now))
  {
    hide AfterStat;
    var l := Label.Stat(op, true, now);
    Stays(w);
    Onward(w, w, l);
    w' := Apply(w, l);
  }

  /** Storage removes the object. */
  lemma Removes(w: World, op: nat, now: int) returns (w': World)
    requires op in w.ops && w.ops[op].pc.ToRemove?
    ensures Reaches(w, w')
    ensures var v := w.ops[op].pc.v;
            w' == Goto(w.(objects := w.objects - {v.objectKey}), op, AfterRelease(w.ops[op].call, v, Done, now))
  {
    hide AfterRelease;
    var l := Remove(op, Done, now);
    Stays(w);
    Onward(w, w, l);
    w' := Apply(w, l);
  }

  /** A write that meets its version commits. */
  lemma Writes(w: World, op: nat) returns (w': World)
    requires Applies(w, op, Committed)
    ensures Reaches(w, w')
    ensures var Op(call, ToUpdate(_, v, expected, _)) := w.ops[op];
            && w'.rows == w.rows[v.id := DbUpdate(w.rows[v.id], v)]
            && w'.objects == w.objects && w'.sessions == w.sessions
            && w'.ops == w.ops[op := Op(call,
                 if call.req.Delete? && v.status == Deleting then ToRemove(v.(version := expected + 1))
                 else Returned(Row(v.(version := expected + 1))))]
  {
    hide DbUpdate;
    hide Project;
    var l := Update(op, Committed);
    Stays(w);
    Onward(w, w, l);
    w' := Apply(w, l);
  }

  // ---- The small file ----

  function Zeros(n: nat): (s: string)
    ensures |s| == n && forall i :: 0 <= i < n ==> s[i] == '0'
  {
    seq(n, i => '0')
  }

  function Id(): string {
    Zeros(36)
  }

  function Hex(): string {
    Zeros(64)
  }

  function File(): Target {
    Target(Id(), "t", "a")
  }

  function SmallUpload(): Upload {
    Upload("t", "a", "f", "c", true, 1, Hex(), "k")
  }

  const SESSION := "s"

  function Asked(req: Request, scanning: bool): Call {
    Call(Some(Principal("u", false, "")), Config(true, 1, "b", 1, 1, scanning), req)
  }

  /** The row its initiation inserts: one byte, in one part if it is a multipart upload. */
  function Born(mode: UploadMode): Metadata {
    var v := NewRow(Asked(InitiateSingle(SmallUpload()), true), SmallUpload(), mode,
                    if mode == Single then 0 else MIN_PART_SIZE, if mode == Single then 0 else 1, Id(), 0);
    v.(uploadId := if mode == Single then "" else SESSION)
  }

  /** A later version of that row. */
  predicate IsSmall(v: Metadata) {
    Facts(v) == Born(v.mode)
  }

  function Moved(call: Call, v: Metadata, status: Status, scan: ScanStatus): Metadata {
    Stage(call, v, status, scan, 0).(version := v.version + 1)
  }

  lemma Plain(s: string)
    requires Trimmed(s, IsSpace)
    ensures TrimSpace(s) == s
  {
    TrimNormalizes(s, IsSpace);
  }

  lemma PlainName()
    ensures CleanFilename("f") == "f"
  {
    Plain("f");
    assert ("f")[..0] == "";
    assert StripSlashes("f") == "f";
    assert AfterSlash("f") == AfterSlash("") + ['f'] == "f";
  }

  lemma PlainUpload()
    ensures Normalize(SmallUpload()) == SmallUpload()
    ensures Lower(TrimSpace(Hex())) == Hex() && ValidChecksum(Hex())
  {
    hide CleanFilename;
    hide TrimSpace;
    Plain("t");
    Plain("a");
    Plain("c");
    Plain("k");
    Plain(Hex());
    PlainName();
    assert Lower(Hex()) == Hex();
  }

  lemma UploadIsAdmitted(req: Request, scanning: bool)
    ensures ValidateUpload(Asked(req, scanning), SmallUpload(), Granted) == Ok(SmallUpload())
  {
    hide CleanFilename;
    hide TrimSpace;
    hide Normalize;
    PlainUpload();
    Plain("t");
    Plain("a");
  }

  lemma SingleIsDrafted(scanning: bool)
    ensures Draft(Asked(InitiateSingle(SmallUpload()), scanning), Granted, Id(), 0) == Ok(Born(Single))
  {
    hide ValidateUpload;
    hide SmallUpload;
    hide ObjectKey;
    UploadIsAdmitted(InitiateSingle(SmallUpload()), scanning);
  }

  lemma OnePart()
    ensures CountAccepted(1, MIN_PART_SIZE) && Wrap32(ComputedCount(1, MIN_PART_SIZE)) == 1
    ensures SmallUpload().size == 1
  {
  }

  lemma MultipartIsDrafted(scanning: bool)
    ensures Draft(Asked(InitiateMultipart(SmallUpload(), MIN_PART_SIZE), scanning), Granted, Id(), 0)
            == Ok(Born(Multipart).(uploadId := ""))
  {
    hide ValidateUpload;
    hide SmallUpload;
    hide ObjectKey;
    hide CountAccepted;
    hide ComputedCount;
    hide Wrap32;
    OnePart();
    UploadIsAdmitted(InitiateMultipart(SmallUpload(), MIN_PART_SIZE), scanning);
  }

  lemma FileIsAdmitted(req: Request, scanning: bool)
    requires !req.InitiateSingle? && !req.InitiateMultipart? && !req.Cleanup? && req.target == File()
    requires req.Report? ==> req.result == ScanClean || req.result == ScanInfected
    ensures Admission(Asked(req, scanning), Granted).None?
  {
    hide TrimSpace;
    Plain("t");
    Plain("a");
  }

  lemma SmallFacts(v: Metadata)
    requires IsSmall(v)
    ensures v.id == Id() && v.tenant == "t" && v.application == "a" && v.size == 1 && v.checksum == Hex()
    ensures v.objectKey == Born(v.mode).objectKey && v.expiresAt == Some(1)
    ensures v.mode == Multipart ==> v.uploadId == SESSION && v.partCount == 1
  {
    hide ObjectKey;
    assert Facts(v).size == v.size && Facts(v).expiresAt == v.expiresAt && Facts(v).uploadId == v.uploadId
           && Facts(v).partCount == v.partCount;
    SameIdByFacts(v, Born(v.mode));
  }

  /** The table holds one version of the file and nothing else. */
  ghost predicate HasFile(w: World) {
    w.rows.Keys == {Id()} && IsSmall(w.rows[Id()])
  }

  function TheObject(): ObjectInfo {
    ObjectInfo(1, Hex())
  }

  ghost predicate HasObject(w: World) {
    HasFile(w) && w.rows[Id()].objectKey in w.objects && w.objects[w.rows[Id()].objectKey] == TheObject()
  }

  /** `w'` is reached from `w` by a call `op` that has returned, the others untouched. */
  ghost predicate Answered(w: World, w': World, op: nat) {
    && Reaches(w, w') && w'.ops.Keys == w.ops.Keys + {op} && w'.ops[op].pc.Returned?
    && forall p :: p in w.ops && p != op ==> p in w'.ops && w'.ops[p] == w.ops[p]
  }

  // ---- Whole calls on it ----

  lemma ReadsNothing(mode: UploadMode, scanning: bool)
    ensures AfterRead(map[], Op(Initiation(mode, scanning), Start), Granted, true, Id(), 0)
            == if mode == Single then ToInsert(Born(Single)) else ToOpen(Born(Multipart).(uploadId := ""))
  {
    hide Draft;
    hide Born;
    SingleIsDrafted(scanning);
    MultipartIsDrafted(scanning);
  }

  function Initiation(mode: UploadMode, scanning: bool): Call {
    Asked(if mode == Single then InitiateSingle(SmallUpload()) else InitiateMultipart(SmallUpload(), MIN_PART_SIZE), scanning)
  }

  lemma IdIsUuid()
    ensures IsUuid(Id())
  {
  }

  lemma BornShape(mode: UploadMode)
    ensures var v := Born(mode);
            && v.id == Id() && v.mode == mode && v.status == PendingUpload && v.version == 1 && v.scan == ScanPending
            && IsSmall(v) && v.(uploadId := "").(uploadId := SESSION) == v.(uploadId := SESSION)
            && (mode == Multipart ==> v.(uploadId := SESSION) == v) && v.checksum == Hex()
  {
  }

  /** The insert of the row, which is the first. */
  lemma Inserts(w: World, mode: UploadMode, scanning: bool) returns (w': World)
    requires w.rows == map[] && w.ops == map[0 := Op(Initiation(mode, scanning), ToInsert(Born(mode)))]
    ensures Reaches(w, w') && w'.rows == map[Id() := Born(mode)] && w'.objects == w.objects && w'.sessions == w.sessions
    ensures w'.ops.Keys == {0}
    ensures w'.ops[0].pc == if mode == Single then ToSign(Born(mode)) else Returned(Row(Born(mode)))
  {
    hide Born;
    hide Project;
    BornShape(mode);
    var l := Insert(0, Committed);
    Stays(w);
    Onward(w, w, l);
    assert CanInsert(w, Born(mode));
    w' := Apply(w, l);
  }

  /** A single upload is initiated. */
  lemma Singles(scanning: bool) returns (w: World)
    ensures Reachable(w) && HasFile(w) && w.rows[Id()] == Born(Single) && w.objects == map[] && w.sessions == map[]
    ensures w.ops.Keys == {0} && w.ops[0].pc.Returned?
  {
    hide Born;
    hide AfterRead;
    hide Reaches;
    hide IsUuid;
    IdIsUuid();
    ReadsNothing(Single, scanning);
    BornShape(Single);
    ReachableEmpty();
    var w1 := Asks(EMPTY, 0, Initiation(Single, scanning), Id(), 0);
    var w2 := Inserts(w1, Single, scanning);
    Joins(EMPTY, w1, w2);
    var l := Sign(0, true);
    Onward(EMPTY, w2, l);
    w := Apply(w2, l);
    hide Apply;
    ReachableOnward(EMPTY, w);
  }

  /** A multipart upload is initiated as far as its session. */
  lemma Opens(scanning: bool) returns (w: World)
    ensures Reachable(w) && w.rows == map[] && w.objects == map[]
    ensures w.sessions == map[SESSION := Session(Born(Multipart).objectKey, Hex(), Open)]
    ensures w.ops == map[0 := Op(Initiation(Multipart, scanning), ToInsert(Born(Multipart)))]
  {
    hide Born;
    hide AfterRead;
    hide Reaches;
    hide IsUuid;
    IdIsUuid();
    ReadsNothing(Multipart, scanning);
    BornShape(Multipart);
    ReachableEmpty();
    var w1 := Asks(EMPTY, 0, Initiation(Multipart, scanning), Id(), 0);
    var l := OpenSession(0, Done, SESSION);
    Onward(EMPTY, w1, l);
    w := Apply(w1, l);
    hide Apply;
    ReachableOnward(EMPTY, w);
  }

  /** A multipart upload is initiated. */
  lemma Multiparts(scanning: bool) returns (w: World)
    ensures Reachable(w) && HasFile(w) && w.rows[Id()] == Born(Multipart) && w.objects == map[]
    ensures w.sessions == map[SESSION := Session(Born(Multipart).objectKey, Hex(), Open)]
    ensures w.ops.Keys == {0} && w.ops[0].pc.Returned?
  {
    hide Born;
    hide Reaches;
    BornShape(Multipart);
    var w1 := Opens(scanning);
    w := Inserts(w1, Multipart, scanning);
    ReachableOnward(w1, w);
  }

  /** The client uploads the byte. */
  lemma Puts(w: World) returns (w': World)
    requires HasFile(w)
    ensures Reaches(w, w') && HasObject(w')
    ensures w' == w.(objects := w.objects[w.rows[Id()].objectKey := TheObject()])
  {
    SmallFacts(w.rows[Id()]);
    hide IsSmall;
    var l := Put(Id());
    Stays(w);
    Onward(w, w, l);
    w' := Apply(w, l);
  }

  lemma ReadsFile(w: World, call: Call)
    requires call.req.Complete? || call.req.CompleteMultipart? || call.req.Report? || call.req.Delete?
    requires HasFile(w) && Admission(call, Granted).None? && call.req.target == File()
    ensures AfterRead(w.rows, Op(call, Start), Granted, true, Id(), 0) == AfterGet(call, w.rows[Id()], 0)
  {
    hide Admission;
    hide AfterGet;
    SmallFacts(w.rows[Id()]);
    hide IsSmall;
  }

  /** An admitted call on the file begins and reads it. */
  lemma Loads(w: World, op: nat, req: Request, scanning: bool) returns (w': World)
    requires req.Complete? || req.CompleteMultipart? || req.Delete?
             || (req.Report? && (req.result == ScanClean || req.result == ScanInfected))
    requires HasFile(w) && op !in w.ops && req.target == File()
    ensures Reaches(w, w')
    ensures w' == w.(ops := w.ops[op := Op(Asked(req, scanning), AfterGet(Asked(req, scanning), w.rows[Id()], 0))])
  {
    hide AfterRead;
    hide AfterGet;
    hide Admission;
    hide HasFile;
    hide Reaches;
    hide IsUuid;
    IdIsUuid();
    FileIsAdmitted(req, scanning);
    ReadsFile(w, Asked(req, scanning));
    w' := Asks(w, op, Asked(req, scanning), Id(), 0);
  }

  lemma PlansCompletion(call: Call, v: Metadata)
    requires IsSmall(v) && v.status != Ready && call.req.Complete? && call.req.checksum == Hex() && call.req.expected >= 1
    ensures Planned(call, v, Some(TheObject()), 0) == Some(Stage(call, v, Ready, ReadyScan(call), 0))
  {
    hide Stage;
    SmallFacts(v);
    PlainUpload();
    hide IsSmall;
    hide Normalize;
  }

  function CompletionOf(w: World, scanning: bool): Call
    requires Id() in w.rows
  {
    Asked(Complete(File(), Hex(), w.rows[Id()].version), scanning)
  }

  /** A completion reads the file and stats its object. */
  lemma Inspects(w: World, op: nat, scanning: bool) returns (w': World)
    requires HasObject(w) && op !in w.ops && w.rows[Id()].status != Ready && w.rows[Id()].version >= 1
    ensures Reaches(w, w')
    ensures var (call, v) := (CompletionOf(w, scanning), w.rows[Id()]);
            w' == w.(ops := w.ops[op :=
              Op(call, ToUpdate(v, Stage(call, v, Ready, ReadyScan(call), 0), v.version, Some(TheObject())))])
  {
    hide IsSmall;
    hide Planned;
    hide Reaches;
    hide Stage;
    var call := CompletionOf(w, scanning);
    PlansCompletion(call, w.rows[Id()]);
    var w1 := Loads(w, op, call.req, scanning);
    w' := Stats(w1, op, 0);
    Joins(w, w1, w');
    var o := w'.ops[op];
    assert w.ops[op := w1.ops[op]][op := o] == w.ops[op := o];
  }

  /** A call waiting to write the file commits. */
  lemma Commits(w: World, op: nat, call: Call, base: Metadata, expected: int, info: Option<ObjectInfo>, status: Status, scan: ScanStatus)
    returns (w': World)
    requires HasFile(w) && op in w.ops && IsSmall(base) && base.mode == w.rows[Id()].mode
    requires w.ops[op] == Op(call, ToUpdate(base, Stage(call, base, status, scan, 0), expected, info))
    requires w.rows[Id()].version == expected
    ensures Reaches(w, w') && HasFile(w') && w'.objects == w.objects && w'.sessions == w.sessions
    ensures w'.rows[Id()] == Stage(call, base, status, scan, 0).(version := expected + 1)
    ensures var done := Stage(call, base, status, scan, 0).(version := expected + 1);
            w'.ops == w.ops[op := Op(call, if call.req.Delete? && status == Deleting then ToRemove(done) else Returned(Row(done)))]
  {
    SmallFacts(base);
    SmallFacts(w.rows[Id()]);
    var v := Stage(call, base, status, scan, 0);
    StageIsSmall(call, base, status, scan);
    hide IsSmall;
    hide Reaches;
    w' := Writes(w, op);
    SmallUpdate(w.rows[Id()], v);
  }

  lemma StageIsSmall(call: Call, v: Metadata, status: Status, scan: ScanStatus)
    requires IsSmall(v)
    ensures IsSmall(Stage(call, v, status, scan, 0)) && Stage(call, v, status, scan, 0).mode == v.mode
    ensures Stage(call, v, status, scan, 0).status == status
  {
    hide Born;
  }

  lemma SmallUpdate(row: Metadata, v: Metadata)
    requires IsSmall(row) && IsSmall(v)
    ensures IsSmall(DbUpdate(row, v))
    ensures row.mode == v.mode ==> DbUpdate(row, v) == v.(version := row.version + 1)
  {
  }

  /** A completion from beginning to end. */
  lemma Completes(w: World, op: nat, scanning: bool) returns (w': World)
    requires HasObject(w) && op !in w.ops && w.rows[Id()].status != Ready && w.rows[Id()].version >= 1
    ensures Answered(w, w', op) && HasObject(w') && w'.objects == w.objects && w'.sessions == w.sessions
    ensures w'.rows[Id()] == Moved(CompletionOf(w, scanning), w.rows[Id()], Ready, ReadyScan(CompletionOf(w, scanning)))
  {
    hide IsSmall;
    hide Reaches;
    var call := CompletionOf(w, scanning);
    var w1 := Inspects(w, op, scanning);
    w' := Commits(w1, op, call, w.rows[Id()], w.rows[Id()].version, Some(TheObject()), Ready, ReadyScan(call));
    Joins(w, w1, w');
    KeepsKey(w.rows[Id()], w'.rows[Id()]);
  }

  lemma KeepsKey(v: Metadata, u: Metadata)
    requires IsSmall(v) && IsSmall(u) && v.mode == u.mode
    ensures v.objectKey == u.objectKey
  {
    SmallFacts(v);
    SmallFacts(u);
  }

  function DeletionOf(w: World): Call
    requires Id() in w.rows
  {
    Asked(Request.Delete(File(), w.rows[Id()].version), true)
  }

  /** A deletion as far as its mark, about to remove the object. */
  lemma Marks(w: World, op: nat) returns (w': World)
    requires HasFile(w) && op !in w.ops && w.rows[Id()].version >= 1
    requires w.rows[Id()].status != Deleting && w.rows[Id()].status != Deleted
    ensures Reaches(w, w') && HasFile(w') && w'.objects == w.objects && w'.sessions == w.sessions
    ensures var row := Moved(DeletionOf(w), w.rows[Id()], Deleting, w.rows[Id()].scan);
            w'.rows[Id()] == row && w'.ops == w.ops[op := Op(DeletionOf(w), ToRemove(row))]
  {
    hide IsSmall;
    hide Reaches;
    var (call, v) := (DeletionOf(w), w.rows[Id()]);
    var w1 := Loads(w, op, call.req, true);
    w' := Commits(w1, op, call, v, v.version, None, Deleting, v.scan);
    Joins(w, w1, w');
    assert w.ops[op := w1.ops[op]][op := w'.ops[op]] == w.ops[op := w'.ops[op]];
  }

  /** A marked file is removed by the call that is about to. */
  lemma Finishes(w: World, op: nat, call: Call) returns (w': World)
    requires HasFile(w) && call.req.Delete? && call.req.expected >= 1 && w.rows[Id()].status == Deleting
    requires op in w.ops && w.ops[op] == Op(call, ToRemove(w.rows[Id()]))
    ensures Answered(w, w', op) && HasFile(w') && w'.sessions == w.sessions
    ensures w'.objects == w.objects - {w.rows[Id()].objectKey}
    ensures w'.rows[Id()] == Moved(call, w.rows[Id()], Deleted, w.rows[Id()].scan)
  {
    hide IsSmall;
    hide Reaches;
    var v := w.rows[Id()];
    var w1 := Removes(w, op, 0);
    w' := Commits(w1, op, call, v, v.version, None, Deleted, v.scan);
    Joins(w, w1, w');
  }

  /** A deletion from beginning to end. */
  lemma Deletes(w: World, op: nat) returns (w': World)
    requires HasFile(w) && op !in w.ops && w.rows[Id()].version >= 1
    requires w.rows[Id()].status != Deleting && w.rows[Id()].status != Deleted
    ensures Answered(w, w', op) && HasFile(w') && w'.sessions == w.sessions
    ensures w'.objects == w.objects - {w.rows[Id()].objectKey}
    ensures w'.rows[Id()].status == Deleted && w'.rows[Id()].version == w.rows[Id()].version + 2
    ensures w'.rows[Id()].mode == w.rows[Id()].mode
  {
    hide IsSmall;
    hide Reaches;
    var w1 := Marks(w, op);
    KeepsKey(w.rows[Id()], w1.rows[Id()]);
    w' := Finishes(w1, op, DeletionOf(w));
    Joins(w, w1, w');
  }

  function Sweep(): Call {
    Call(None, Config(true, 1, "b", 1, 1, true), Cleanup(Id(), 1))
  }

  lemma SmallIsDue(v: Metadata)
    requires IsSmall(v) && v.status == PendingUpload
    ensures DueForCleanup(v, 1)
  {
    SmallFacts(v);
  }

  /** A cleanup lists the single upload and is about to remove its object. */
  lemma Lists(w: World, op: nat) returns (w': World)
    requires HasFile(w) && op !in w.ops && w.rows[Id()].status == PendingUpload && w.rows[Id()].mode == Single
    ensures Reaches(w, w') && w' == w.(ops := w.ops[op := Op(Sweep(), ToRemove(w.rows[Id()]))])
  {
    hide Reaches;
    hide IsUuid;
    IdIsUuid();
    SmallIsDue(w.rows[Id()]);
    hide IsSmall;
    hide DueForCleanup;
    w' := Asks(w, op, Sweep(), Id(), 0);
  }

  /** A cleanup from beginning to end. */
  lemma Expires(w: World, op: nat) returns (w': World)
    requires HasFile(w) && op !in w.ops && w.rows[Id()].status == PendingUpload && w.rows[Id()].mode == Single
    ensures Answered(w, w', op) && HasFile(w') && w'.sessions == w.sessions
    ensures w'.rows[Id()] == Moved(Sweep(), w.rows[Id()], Expired, w.rows[Id()].scan)
  {
    hide Reaches;
    var v := w.rows[Id()];
    SmallIsDue(v);
    hide IsSmall;
    hide DueForCleanup;
    var w1 := Lists(w, op);
    var w2 := Removes(w1, op, 0);
    w' := Commits(w2, op, Sweep(), v, v.version, None, Expired, v.scan);
    Joins(w, w1, w2);
    Joins(w, w2, w');
  }
}
