/** Where the guarantees end: runs in which the conditions of the other modules are not met and
    their conclusions fail, and runs that take a file out of a status one might think final. */
module Limits {
  import opened Basics
  import opened Text
  import opened Completion
  import opened ObjectKeys
  import opened Model
  import opened Protocol
  import opened Invariants
  import opened History
  import opened Agreement
  import opened Sessions
  import opened Scenarios

  lemma RowHasItsId(w: World, id: string)
    requires Reachable(w) && id in w.rows
    ensures w.rows[id].id == id
  {
    hide TablesOk;
    ReachableInv(w);
    RowIsSnapshot(w, id);
  }

  // ---- A version above the one read ----

  lemma ReportPlan(call: Call, v: Metadata, now: int)
    requires call.req.Report? && v.status == Ready && v.scan == ScanPending
    requires call.req.result == ScanClean || call.req.result == ScanInfected
    ensures AfterGet(call, v, now) == ToUpdate(v, Stage(call, v, Ready, call.req.result, now), call.req.expected, None)
  {
  }

  /** A report on a ready row begins, reads, and is about to write. */
  lemma Reports(w: World, op: nat, call: Call, uuid: string, now: int) returns (w': World)
    requires op !in w.ops && IsUuid(uuid) && call.req.Report?
    requires call.req.result == ScanClean || call.req.result == ScanInfected
    requires Admission(call, Granted).None? && Find(w.rows, call.req.target).Some?
    requires var v := Find(w.rows, call.req.target).value; v.status == Ready && v.scan == ScanPending
    ensures Reaches(w, w')
    ensures var v := Find(w.rows, call.req.target).value;
            w' == w.(ops := w.ops[op :=
              Op(call, ToUpdate(v, Stage(call, v, Ready, call.req.result, now), call.req.expected, None))])
  {
    hide Admission;
    hide AfterGet;
    hide Find;
    hide Reaches;
    ReportPlan(call, Find(w.rows, call.req.target).value, now);
    w' := Asks(w, op, call, uuid, now);
  }

  /** A scanner that presents one version more than it read wipes out an infected result that
      another scanner commits in between: the file becomes downloadable right after having been
      reported infected, with no deletion and no completion. */
  lemma GuessingCallerWipesOutInfection(w: World, id: string, a: nat, b: nat, guess: Call, honest: Call, uuid: string, now: int)
    returns (w1: World, w2: World)
    requires Reachable(w) && id in w.rows && w.rows[id].status == Ready && w.rows[id].scan == ScanPending
    requires a != b && a !in w.ops && b !in w.ops && IsUuid(uuid)
    requires var t := Target(id, w.rows[id].tenant, w.rows[id].application);
             && guess.req == Report(t, ScanClean, w.rows[id].version + 1) && Admission(guess, Granted).None?
             && honest.req == Report(t, ScanInfected, w.rows[id].version) && Admission(honest, Granted).None?
    ensures Reaches(w, w1) && Reaches(w1, w2)
    ensures id in w1.rows && w1.rows[id].status == Ready && w1.rows[id].scan == ScanInfected
    ensures id in w2.rows && Downloadable(w2.rows[id]) && w2.rows[id].version == w1.rows[id].version + 1
  {
    hide Admission;
    hide Reachable;
    hide Reaches;
    RowHasItsId(w, id);
    var r1 := Reports(w, a, guess, uuid, now);
    var r2 := Reports(r1, b, honest, uuid, now);
    w1 := Writes(r2, b);
    Joins(w, r1, r2);
    Joins(w, r2, w1);
    w2 := Writes(w1, a);
  }

  /** Such a run exists. */
  lemma InfectionCanBeWipedOut() returns (w1: World, w2: World)
    ensures Reachable(w1) && Reaches(w1, w2)
    ensures Id() in w1.rows && w1.rows[Id()].status == Ready && w1.rows[Id()].scan == ScanInfected
    ensures Id() in w2.rows && Downloadable(w2.rows[Id()])
  {
    hide Reachable;
    hide Reaches;
    hide Downloadable;
    hide IsUuid;
    IdIsUuid();
    var w := ScannableFile();
    SmallFacts(w.rows[Id()]);
    hide IsSmall;
    var guess := Asked(Report(File(), ScanClean, w.rows[Id()].version + 1), true);
    var honest := Asked(Report(File(), ScanInfected, w.rows[Id()].version), true);
    FileIsAdmitted(guess.req, true);
    FileIsAdmitted(honest.req, true);
    hide Admission;
    w1, w2 := GuessingCallerWipesOutInfection(w, Id(), 2, 3, guess, honest, Id(), 0);
    ReachableOnward(w, w1);
  }

  /** A ready file that awaits its scan; calls 0 and 1 have returned. */
  lemma ScannableFile() returns (w: World)
    ensures Reachable(w) && HasObject(w) && w.ops.Keys == {0, 1}
    ensures w.rows[Id()].status == Ready && w.rows[Id()].scan == ScanPending && w.rows[Id()].version == 2
    ensures w.rows[Id()].mode == Single
  {
    hide Reachable;
    hide IsSmall;
    hide Reaches;
    var w1 := StoredUpload();
    w := Completes(w1, 1, true);
    ReachableOnward(w1, w);
  }

  /** A single upload, pending, its object stored; call 0 has returned. */
  lemma StoredUpload() returns (w: World)
    ensures Reachable(w) && HasObject(w) && w.ops.Keys == {0} && w.rows[Id()] == Born(Single)
    ensures w.rows[Id()].status == PendingUpload && w.rows[Id()].version == 1 && w.rows[Id()].mode == Single
  {
    hide Reachable;
    hide IsSmall;
    hide Reaches;
    BornShape(Single);
    var w1 := Singles(true);
    w := Puts(w1);
    ReachableOnward(w1, w);
  }

  // ---- Ready rows without their object ----

  /** Cleanup removes the object before its version test: if a completion slips in between the
      listing and the removal, the row is ready and its object is gone. */
  lemma ReadyRowCanBeStranded() returns (w: World)
    ensures Reachable(w) && Id() in w.rows
    ensures w.rows[Id()].status == Ready && !Stored(w.objects, w.rows[Id()])
  {
    hide Reachable;
    hide IsSmall;
    hide Reaches;
    var w0 := StoredUpload();
    var w1 := Lists(w0, 1);
    var w2 := Completes(w1, 2, true);
    KeepsKey(w1.rows[Id()], w2.rows[Id()]);
    w := Removes(w2, 1, 0);
    ReachableOnward(w0, w1);
    ReachableOnward(w1, w2);
    ReachableOnward(w2, w);
  }

  /** If it removes the object of a row that is still pending, all is well at that moment; but
      a completion that has seen the object before goes on to commit. */
  lemma InspectedObjectCanBeRemoved() returns (w: World, w': World)
    ensures Reachable(w) && RowsAgree(w) && Id() in w.rows && w.rows[Id()].objectKey !in w.objects
    ensures Reaches(w, w') && Id() in w'.rows
    ensures w'.rows[Id()].status == Ready && !Stored(w'.objects, w'.rows[Id()])
  {
    hide Reachable;
    hide IsSmall;
    hide Reaches;
    var w0 := StoredUpload();
    var v := w0.rows[Id()];
    var w1 := Lists(w0, 1);
    var w2 := Inspects(w1, 2, true);
    w := Removes(w2, 1, 0);
    ReachableOnward(w0, w1);
    ReachableOnward(w1, w2);
    ReachableOnward(w2, w);
    var call := CompletionOf(w1, true);
    w' := Commits(w, 2, call, v, v.version, Some(TheObject()), Ready, ReadyScan(call));
    KeepsKey(v, w'.rows[Id()]);
  }

  function PartList(): seq<Part> {
    [Part(1, "e")]
  }

  lemma PartListIsAcceptable()
    ensures Acceptable(PartList(), 1)
  {
    TrimNormalizes("e", IsSpace);
    TrimNormalizes("e", IsQuote);
    assert CleanTag("e") == "e";
  }

  function Assembly(): Request {
    CompleteMultipart(File(), Hex(), PartList(), 1)
  }

  lemma AssemblyIsOpen(v: Metadata)
    requires v == Born(Multipart)
    ensures AfterGet(Asked(Assembly(), true), v, 0) == ToFinish(v)
  {
    BornShape(Multipart);
    SmallFacts(v);
    PartListIsAcceptable();
    hide Acceptable;
    hide IsSmall;
    hide Born;
    assert |PartList()| == 1;
  }

  /** A multipart upload can also be completed from an object put as a whole; assembling its
      parts after that puts another object under the ready row. */
  lemma ReadyObjectCanBeReplaced() returns (w: World, w': World)
    ensures Reachable(w) && Id() in w.rows && w.rows[Id()].status == Ready && Stored(w.objects, w.rows[Id()])
    ensures Reaches(w, w') && w'.rows == w.rows && !Stored(w'.objects, w'.rows[Id()])
  {
    hide Reachable;
    hide Reaches;
    var w0 := Multiparts(true);
    var v := w0.rows[Id()];
    AssemblyIsOpen(v);
    BornShape(Multipart);
    SmallFacts(v);
    hide IsSmall;
    hide Born;
    hide AfterGet;
    var w1 := Loads(w0, 1, Assembly(), true);
    var w2 := Puts(w1);
    w := Completes(w2, 2, true);
    ReachableOnward(w0, w1);
    ReachableOnward(w1, w2);
    ReachableOnward(w2, w);
    ReadyIsStoredHere(w);
    w' := Assembles(w, 1, v, 2);
    KeepsKey(v, w.rows[Id()]);
    AnotherSize(w'.objects, w.rows[Id()], v.objectKey);
  }

  lemma ReadyIsStoredHere(w: World)
    requires HasObject(w)
    ensures Stored(w.objects, w.rows[Id()])
  {
    SmallFacts(w.rows[Id()]);
  }

  lemma AnotherSize(objects: map<string, ObjectInfo>, v: Metadata, key: string)
    requires IsSmall(v) && v.objectKey == key && key in objects && objects[key].size == 2
    ensures !Stored(objects, v)
  {
    SmallFacts(v);
  }

  /** A call that is about to assemble parts does so. */
  lemma Assembles(w: World, op: nat, v: Metadata, size: int) returns (w': World)
    requires op in w.ops && w.ops[op].pc == ToFinish(v) && IsOpen(w, v.uploadId)
    ensures Reaches(w, w') && w'.rows == w.rows
    ensures v.objectKey in w'.objects && w'.objects[v.objectKey].size == size
  {
    var l := Finish(op, Done, size, true);
    Stays(w);
    Onward(w, w, l);
    w' := Apply(w, l);
  }

  // ---- Expired, deleting and deleted rows come back ----

  lemma ExpiredComesBack() returns (w: World, w': World)
    ensures Reachable(w) && Id() in w.rows && w.rows[Id()].status == Expired
    ensures Reaches(w, w') && Id() in w'.rows && w'.rows[Id()].status == Ready
  {
    hide Reachable;
    hide IsSmall;
    hide Reaches;
    var w0 := StoredUpload();
    w := Expires(w0, 1);
    ReachableOnward(w0, w);
    var w2 := Puts(w);
    w' := Completes(w2, 2, true);
    Joins(w, w2, w');
  }

  lemma DeletingComesBack() returns (w: World, w': World)
    ensures Reachable(w) && Id() in w.rows && w.rows[Id()].status == Deleting
    ensures Reaches(w, w') && Id() in w'.rows && w'.rows[Id()].status == Ready
  {
    hide Reachable;
    hide IsSmall;
    hide Reaches;
    var w0 := StoredUpload();
    w := Marks(w0, 1);
    ReachableOnward(w0, w);
    KeepsKey(w0.rows[Id()], w.rows[Id()]);
    w' := Completes(w, 2, true);
  }

  lemma DeletedComesBack() returns (w: World, w': World)
    ensures Reachable(w) && Id() in w.rows && w.rows[Id()].status == Deleted
    ensures Reaches(w, w') && Id() in w'.rows && w'.rows[Id()].status == Ready
  {
    hide Reachable;
    hide IsSmall;
    hide Reaches;
    var w0 := StoredUpload();
    w := Deletes(w0, 1);
    ReachableOnward(w0, w);
    var w2 := Puts(w);
    w' := Completes(w2, 2, true);
    Joins(w, w2, w');
  }

  /** A scan report computed from the ready row, presented at the version of the deleted one,
      takes the row back to ready with no look at the object, which is gone. */
  lemma StaleReportRevivesDeleted() returns (w: World, w': World)
    ensures Reachable(w) && Id() in w.rows && w.rows[Id()].status == Deleted
    ensures Reaches(w, w') && Id() in w'.rows
    ensures Downloadable(w'.rows[Id()]) && !Stored(w'.objects, w'.rows[Id()])
  {
    hide Reachable;
    hide Reaches;
    hide IsUuid;
    IdIsUuid();
    var w0 := ScannableFile();
    var v := w0.rows[Id()];
    SmallFacts(v);
    hide IsSmall;
    var call := Asked(Report(File(), ScanClean, v.version + 2), true);
    FileIsAdmitted(call.req, true);
    hide Admission;
    var w1 := Reports(w0, 2, call, Id(), 0);
    w := Deletes(w1, 3);
    ReachableOnward(w0, w1);
    ReachableOnward(w1, w);
    w' := Commits(w, 2, call, v, v.version + 2, None, Ready, ScanClean);
    KeepsKey(v, w'.rows[Id()]);
  }

  // ---- Sessions left open ----

  /** An initiate that crashes between opening its session and inserting its row orphans it. */
  lemma CrashedInitiateOrphans() returns (w: World)
    ensures Reachable(w) && IsOpen(w, SESSION) && !HasOwner(w, SESSION)
  {
    hide Reachable;
    hide Reaches;
    var w0 := Opens(true);
    Stays(w0);
    Onward(w0, w0, Crash(0));
    w := Apply(w0, Crash(0));
    hide Apply;
    ReachableOnward(w0, w);
  }

  /** Deleting a pending multipart upload runs through and leaves its session open. */
  lemma DeletedUploadKeepsItsSession() returns (w: World, w': World)
    ensures Reachable(w) && Id() in w.rows && w.rows[Id()].mode == Multipart && w.rows[Id()].status == PendingUpload
    ensures IsOpen(w, w.rows[Id()].uploadId)
    ensures Reaches(w, w') && Id() in w'.rows && w'.rows[Id()].status == Deleted
    ensures w'.rows[Id()].mode == Multipart && IsOpen(w', w'.rows[Id()].uploadId)
  {
    hide Reachable;
    hide Reaches;
    BornShape(Multipart);
    w := Multiparts(true);
    w' := Deletes(w, 1);
    SmallFacts(w.rows[Id()]);
    SmallFacts(w'.rows[Id()]);
    hide IsSmall;
    hide Born;
  }
}
