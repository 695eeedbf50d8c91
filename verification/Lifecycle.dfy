/** Lives of a file when no write goes through on a stale snapshot: what an infected result
    leads to, and how a deletion proceeds through failures and retries. */
module Lifecycle {
  import opened Basics
  import opened Model
  import opened Protocol
  import opened Invariants
  import opened History
  import opened Serializability

  /** Every commit was computed from the version right before it. */
  ghost predicate Chained(h: seq<Commit>) {
    forall k :: 0 < k < |h| ==> h[k].seen == k
  }

  ghost predicate AllChained(w: World) {
    forall id :: id in w.history ==> Chained(w.history[id])
  }

  lemma AppendKeepsChained(w: World, w': World, id: string, c: Commit)
    requires AllChained(w) && c.seen == |Past(w, id)|
    requires w'.history == w.history[id := Past(w, id) + [c]]
    ensures AllChained(w')
  {
    forall i | i in w'.history ensures Chained(w'.history[i]) {
      if i != id {
        assert Chained(w.history[i]);
      } else if id in w.history {
        assert Chained(w.history[id]);
      }
    }
  }

  lemma UpdateKeepsChained(w: World, op: nat, tx: TxOutcome)
    requires TablesOk(w) && OpsOk(w) && AllChained(w) && Enabled(w, Update(op, tx)) && FreshWrite(w, Update(op, tx))
    ensures AllChained(Apply(w, Update(op, tx)))
  {
    hide AllChained;
    hide Planned;
    hide HistoryOk;
    hide Facts;
    hide StatusOk;
    hide DbUpdate;
    UpdatingIsStaged(w, op);
    var Op(call, ToUpdate(base, v, expected, info)) := w.ops[op];
    if Applies(w, op, tx) {
      UpdatedRow(w, call, base, v, expected, info);
      RowIsSnapshot(w, v.id);
      AppendKeepsChained(w, Apply(w, Update(op, tx)), v.id, Commit(call, info, base.version, DbUpdate(w.rows[v.id], v)));
    } else {
      SameHistoryChained(w, Apply(w, Update(op, tx)));
    }
  }

  lemma SameHistoryChained(w: World, w': World)
    requires AllChained(w) && w'.history == w.history
    ensures AllChained(w')
  {
  }

  lemma InsertKeepsChained(w: World, op: nat, tx: TxOutcome)
    requires AllChained(w) && Enabled(w, Insert(op, tx))
    ensures AllChained(Apply(w, Insert(op, tx)))
  {
    hide KeyTaken;
  }

  lemma StepKeepsChained(w: World, l: Label)
    requires Inv(w) && AllChained(w) && Enabled(w, l) && FreshWrite(w, l)
    ensures AllChained(Apply(w, l))
  {
    hide Apply;
    hide AllChained;
    hide FreshWrite;
    hide TablesOk;
    hide OutboxOk;
    hide KeysUnique;
    hide OpsOk;
    if l.Update? {
      UpdateKeepsChained(w, l.op, l.tx);
    } else if l.Insert? {
      InsertKeepsChained(w, l.op, l.tx);
    } else {
      TablesMoveOnlyBy(w, l);
      SameHistoryChained(w, Apply(w, l));
    }
  }

  lemma {:induction false} FreshRunKeepsChained(w: World, run: seq<Label>)
    requires Inv(w) && AllChained(w) && FreshRun(w, run)
    ensures IsRun(w, run) && AllChained(After(w, run)) && Inv(After(w, run))
    decreases |run|
  {
    hide Inv;
    hide AllChained;
    hide Enabled;
    hide Apply;
    hide FreshWrite;
    if run != [] {
      StepKeepsChained(w, run[0]);
      StepKeepsInv(w, run[0]);
      FreshRunKeepsChained(Apply(w, run[0]), run[1..]);
    }
  }

  lemma ChainLink(id: string, h: seq<Commit>, k: int)
    requires HistoryOk(id, h) && Chained(h) && 0 < k < |h|
    ensures Planned(h[k].call, h[k - 1].row, h[k].info, h[k].row.updatedAt) == Some(h[k].row.(version := k))
  {
    hide Planned;
    hide Drafted;
    hide Accounts;
    assert Derived(h, k);
  }

  // ---- Infected is sticky ----

  predicate ReportedInfected(c: Commit) {
    c.call.req.Report? && c.row.status == Ready && c.row.scan == ScanInfected
  }

  predicate MarkedDeleting(c: Commit) {
    c.call.req.Delete? && c.row.status == Deleting
  }

  /** The only way on from an infected row is a deletion mark. */
  lemma AfterInfected(call: Call, v: Metadata, info: Option<ObjectInfo>, now: int)
    requires v.status == Ready && v.scan == ScanInfected && Planned(call, v, info, now).Some?
    ensures call.req.Delete? && Planned(call, v, info, now).value.status == Deleting
  {
  }

  lemma {:induction false} ReadyNeedsCompletion(id: string, h: seq<Commit>, m: int, j: int) returns (n: int)
    requires HistoryOk(id, h) && Chained(h) && 0 <= m < j < |h|
    requires h[m].row.status != Ready && h[j].row.status == Ready
    ensures m < n <= j && Completing(h[n].call)
    decreases j
  {
    hide HistoryOk;
    hide Planned;
    ChainLink(id, h, j);
    WaysToReady(h[j].call, h[j - 1].row, h[j].info, h[j].row.updatedAt);
    if Completing(h[j].call) {
      n := j;
    } else {
      n := ReadyNeedsCompletion(id, h, m, j - 1);
    }
  }

  lemma InfectedLife(id: string, h: seq<Commit>, i: int, j: int) returns (n: int)
    requires HistoryOk(id, h) && Chained(h) && 0 <= i < j < |h|
    requires ReportedInfected(h[i]) && Downloadable(h[j].row)
    ensures MarkedDeleting(h[i + 1]) && i + 1 < n <= j && Completing(h[n].call)
  {
    hide HistoryOk;
    hide Planned;
    ChainLink(id, h, i + 1);
    AfterInfected(h[i + 1].call, h[i].row, h[i + 1].info, h[i + 1].row.updatedAt);
    n := ReadyNeedsCompletion(id, h, i + 1, j);
  }

  lemma HonestRunIsChained(run: seq<Label>)
    requires HonestRun(EMPTY, run)
    ensures IsRun(EMPTY, run) && Inv(After(EMPTY, run)) && AllChained(After(EMPTY, run))
  {
    hide Inv;
    hide HonestRun;
    hide Apply;
    hide Enabled;
    EmptyInv();
    HonestRunIsFresh(EMPTY, run);
    FreshRunKeepsChained(EMPTY, run);
  }

  lemma InfectedBeforeDownload(w: World, v: Metadata, i: int)
    requires TablesOk(w) && AllChained(w) && Snapshot(w, v) && Downloadable(v)
    requires 0 <= i < v.version - 1 && ReportedInfected(w.history[v.id][i])
    ensures MarkedDeleting(w.history[v.id][i + 1])
    ensures exists n :: i + 1 < n < v.version && Completing(w.history[v.id][n].call)
  {
    hide HistoryOk;
    hide Chained;
    var n := InfectedLife(v.id, w.history[v.id], i, v.version - 1);
  }

  lemma {:induction false} HonestRunsCompose(w: World, first: seq<Label>, second: seq<Label>)
    requires HonestRun(w, first) && IsRun(w, first) && HonestRun(After(w, first), second)
    ensures HonestRun(w, first + second)
    decreases |first|
  {
    hide Enabled;
    hide Apply;
    hide HonestStep;
    if first == [] {
      assert first + second == second;
    } else {
      assert (first + second)[1..] == first[1..] + second;
      HonestRunsCompose(Apply(w, first[0]), first[1..], second);
    }
  }

  /** A download of file `id` works on a row of version `m` or later. */
  predicate SeesAtLeast(o: Op, id: string, m: int) {
    o.call.req.Download? ==>
      match o.pc
      case Start => true
      case ToSign(v) => v.id == id ==> v.version >= m
      case Returned(Url(v)) => v.id == id ==> v.version >= m
      case Returned(_) => true
      case _ => false
  }

  lemma DownloadReads(w: World, l: Label, id: string, m: int)
    requires TablesOk(w) && Enabled(w, l) && l.Read? && id in w.rows && w.rows[id].version >= m
    requires w.ops[l.op].call.req.Download?
    ensures l.op in Apply(w, l).ops && SeesAtLeast(Apply(w, l).ops[l.op], id, m)
  {
    hide TablesOk;
    hide Admission;
    ReadMoves(w, l);
    hide Apply;
    var t := w.ops[l.op].call.req.target;
    if Find(w.rows, t).Some? {
      RowIsSnapshot(w, t.id);
    }
  }

  lemma DownloadStep(w: World, l: Label, op: nat, id: string, m: int)
    requires TablesOk(w) && Enabled(w, l) && id in w.rows && w.rows[id].version >= m
    requires op in w.ops ==> SeesAtLeast(w.ops[op], id, m)
    ensures op in Apply(w, l).ops ==> SeesAtLeast(Apply(w, l).ops[op], id, m)
  {
    hide TablesOk;
    hide Apply;
    OthersUntouched(w, l);
    if !l.Put? && l.op == op {
      if l.Crash? {
        CrashForgets(w, op);
      } else {
        CallsKeepTheirRequest(w, l);
        if l.Read? {
          if w.ops[op].call.req.Download? {
            DownloadReads(w, l, id, m);
          }
        } else if l.Sign? {
          DownloadSigns(w, l);
        }
      }
    }
  }

  lemma DownloadSigns(w: World, l: Label)
    requires Enabled(w, l) && l.Sign?
    ensures l.op in Apply(w, l).ops && Apply(w, l).ops[l.op].pc == Returned(if l.ok then Url(w.ops[l.op].pc.v) else Failed(Unavailable))
  {
  }

  /** A download that begins when the row of its file has version `m` never works on an earlier one. */
  lemma {:induction false} DownloadsSeeTheRow(w: World, run: seq<Label>, op: nat, id: string, m: int)
    requires Inv(w) && IsRun(w, run) && id in w.rows && w.rows[id].version >= m
    requires op in w.ops ==> SeesAtLeast(w.ops[op], id, m)
    ensures op in After(w, run).ops ==> SeesAtLeast(After(w, run).ops[op], id, m)
    decreases |run|
  {
    hide Inv;
    hide Enabled;
    hide Apply;
    hide SeesAtLeast;
    hide Facts;
    hide Extends;
    if run != [] {
      InvTables(w);
      DownloadStep(w, run[0], op, id, m);
      StepKeepsInv(w, run[0]);
      InvTables(Apply(w, run[0]));
      LaterRow(w, Apply(w, run[0]), id);
      DownloadsSeeTheRow(Apply(w, run[0]), run[1..], op, id, m);
    }
  }

  lemma InfectedRowIsNotServed(w: World, v: Metadata, i: int)
    requires Snapshot(w, v) && Downloadable(v) && 0 <= i < |w.history[v.id]| && ReportedInfected(w.history[v.id][i])
    ensures i != v.version - 1
  {
  }

  /** Infected is sticky: with honest callers, if a file has been reported infected and a
      download of it that begins after that is given a URL, then a deletion mark was committed
      right after the report and a completion after the mark. */
  lemma InfectedIsSticky(first: seq<Label>, second: seq<Label>, op: nat, id: string, i: int)
    requires IsRun(EMPTY, first) && HonestRun(EMPTY, first)
    requires IsRun(After(EMPTY, first), second) && HonestRun(After(EMPTY, first), second)
    requires var w1 := After(EMPTY, first);
             && op !in w1.ops && id in w1.rows && id in w1.history
             && 0 <= i < |w1.history[id]| && ReportedInfected(w1.history[id][i])
    requires var w2 := After(After(EMPTY, first), second);
             && op in w2.ops && w2.ops[op].call.req.Download? && w2.ops[op].pc.Returned?
             && w2.ops[op].pc.response.Url? && w2.ops[op].pc.response.file.id == id
    ensures var w2 := After(After(EMPTY, first), second);
            var v := w2.ops[op].pc.response.file;
            && id in w2.history && i + 1 < v.version <= |w2.history[id]|
            && MarkedDeleting(w2.history[id][i + 1])
            && exists n :: i + 1 < n < v.version && Completing(w2.history[id][n].call)
  {
    hide HonestRun;
    hide IsRun;
    hide After;
    hide Inv;
    hide AllChained;
    hide MarkedDeleting;
    hide ReportedInfected;
    hide Reachable;
    var w1 := After(EMPTY, first);
    ReachedBy(first);
    RunsCompose(EMPTY, first, second);
    HonestRunsCompose(EMPTY, first, second);
    HonestRunIsChained(first + second);
    DownloadAfterReport(w1, second, After(w1, second), op, id, i);
  }

  lemma DownloadAfterReport(w1: World, run: seq<Label>, w2: World, op: nat, id: string, i: int)
    requires Reachable(w1) && IsRun(w1, run) && After(w1, run) == w2 && AllChained(w2)
    requires op !in w1.ops && id in w1.rows && id in w1.history
             && 0 <= i < |w1.history[id]| && ReportedInfected(w1.history[id][i])
    requires op in w2.ops && w2.ops[op].call.req.Download? && w2.ops[op].pc.Returned?
             && w2.ops[op].pc.response.Url? && w2.ops[op].pc.response.file.id == id
    ensures var v := w2.ops[op].pc.response.file;
            && id in w2.history && i + 1 < v.version <= |w2.history[id]|
            && MarkedDeleting(w2.history[id][i + 1])
            && exists n :: i + 1 < n < v.version && Completing(w2.history[id][n].call)
  {
    hide IsRun;
    hide After;
    hide Inv;
    hide TablesOk;
    hide AllChained;
    hide Downloadable;
    hide MarkedDeleting;
    hide ReportedInfected;
    hide Reachable;
    hide Completing;
    ReachableInv(w1);
    InvTables(w1);
    RowIsSnapshot(w1, id);
    RunKeepsInv(w1, run);
    InvTables(w2);
    DownloadsSeeTheRow(w1, run, op, id, w1.rows[id].version);
    ReachableAfter(w1, run);
    DownloadProvenance(w2, op);
    InfectedRowIsNotServed(w2, w2.ops[op].pc.response.file, i);
    InfectedBeforeDownload(w2, w2.ops[op].pc.response.file, i);
  }

  /** Whatever versions callers expect, a write that takes effect on an infected row marks it for
      deletion if and only if a delete call makes it, and no other call's write does unless it
      presents a version above the one it read. */
  lemma InfectedIsLeftExactlyBy(w: World, op: nat, tx: TxOutcome)
    requires Reachable(w) && Applies(w, op, tx)
    requires w.rows[w.ops[op].pc.v.id].status == Ready && w.rows[w.ops[op].pc.v.id].scan == ScanInfected
    ensures w.ops[op].pc.v.status == Deleting <==> w.ops[op].call.req.Delete?
    ensures !w.ops[op].call.req.Delete? ==> w.ops[op].pc.expected > w.ops[op].pc.base.version
  {
    hide Reachable;
    hide Inv;
    ReachableInv(w);
    InvOps(w);
    UpdatingIsStaged(w, op);
    FreshExactlyWhenNotAhead(w, op, tx);
    hide OpsOk;
    hide Facts;
    var Op(call, ToUpdate(base, v, expected, info)) := w.ops[op];
    StagedPlan(w, call, base, v, expected, info);
    hide Staged;
    if base == w.rows[v.id] {
      AfterInfected(call, base, info, v.updatedAt);
    }
    MarkedByDelete(call, base, info, v.updatedAt);
  }

  lemma StagedPlan(w: World, call: Call, base: Metadata, v: Metadata, expected: int, info: Option<ObjectInfo>)
    requires Staged(w, call, base, v, expected, info)
    ensures Planned(call, base, info, v.updatedAt) == Some(v) && expected == CasVersion(call, base)
  {
    hide Planned;
  }

  lemma MarkedByDelete(call: Call, v: Metadata, info: Option<ObjectInfo>, now: int)
    requires Planned(call, v, info, now).Some?
    ensures Planned(call, v, info, now).value.status == Deleting ==> call.req.Delete?
    ensures call.req.Delete? && CasVersion(call, v) > v.version ==> Planned(call, v, info, now).value.status == Deleting
  {
  }

  // ---- Expired, deleting and deleted rows come back ----

  predicate Final(s: Status) {
    s == Expired || s == Deleting || s == Deleted
  }

  /** The call completes the upload and the stat of the object agrees with the row. */
  predicate CompletesWith(call: Call, v: Metadata, info: Option<ObjectInfo>) {
    && Completing(call) && call.req.expected >= 1
    && info.Some? && Matches(v, call.req.checksum, info.value)
  }

  /** An expired, deleting or deleted row is taken back to ready exactly by a completion whose
      stat agrees with it; a deleted row is not written otherwise, an expired or deleting one
      only on its way to deletion. */
  lemma FinalRowIsReopenedExactlyBy(call: Call, v: Metadata, info: Option<ObjectInfo>, now: int)
    requires Final(v.status)
    ensures var p := Planned(call, v, info, now);
            && (p.Some? && p.value.status == Ready <==> CompletesWith(call, v, info))
            && (p.Some? && p.value.status != Ready <==> call.req.Delete? && v.status != Deleted && call.req.expected >= 1)
            && (p.Some? && p.value.status != Ready ==> p.value.status == if v.status == Expired then Deleting else Deleted)
  {
  }

  /** So in a life without stale writes. The completion is never the one of an assembled
      multipart upload, which insists on a pending row. */
  lemma AfterFinal(id: string, h: seq<Commit>, k: int)
    requires HistoryOk(id, h) && Chained(h) && 0 < k < |h| && Final(h[k - 1].row.status)
    ensures var (from, to) := (h[k - 1].row.status, h[k].row.status);
            || (h[k].call.req.Complete? && to == Ready && CompletesWith(h[k].call, h[k - 1].row, h[k].info))
            || (h[k].call.req.Delete? && from == Expired && to == Deleting)
            || (h[k].call.req.Delete? && from == Deleting && to == Deleted)
  {
    ChainLink(id, h, k);
    AssembledWasPending(id, h, k);
    hide HistoryOk;
    hide Planned;
    hide Matches;
    FinalRowIsReopenedExactlyBy(h[k].call, h[k - 1].row, h[k].info, h[k].row.updatedAt);
  }

  lemma AssembledWasPending(id: string, h: seq<Commit>, k: int)
    requires HistoryOk(id, h) && 0 < k < |h|
    ensures h[k].call.req.CompleteMultipart? ==> h[k - 1].row.status == PendingUpload
  {
    hide Planned;
    hide Drafted;
    hide Accounts;
    assert Derived(h, k);
  }

  /** With honest callers, all through every file's history. */
  lemma HonestRunsLeaveFinalBy(run: seq<Label>, id: string, k: int)
    requires HonestRun(EMPTY, run) && IsRun(EMPTY, run) && id in After(EMPTY, run).history
    requires var h := After(EMPTY, run).history[id]; 0 < k < |h| && Final(h[k - 1].row.status)
    ensures var h := After(EMPTY, run).history[id];
            var (from, to) := (h[k - 1].row.status, h[k].row.status);
            || (h[k].call.req.Complete? && to == Ready && CompletesWith(h[k].call, h[k - 1].row, h[k].info))
            || (h[k].call.req.Delete? && from == Expired && to == Deleting)
            || (h[k].call.req.Delete? && from == Deleting && to == Deleted)
  {
    hide HonestRun;
    hide IsRun;
    hide Inv;
    hide HistoryOk;
    hide Chained;
    hide CompletesWith;
    HonestRunIsChained(run);
    InvTables(After(EMPTY, run));
    AfterFinal(id, After(EMPTY, run).history[id], k);
  }

  /** Whatever versions callers expect, a write that takes effect on an expired, deleting or
      deleted row is one that the row itself allows if and only if the version presented is not
      above the version read; a deleted row is then reopened by a completion that has seen its
      object. The other writes come from completions, scan reports and deletions. */
  lemma FinalIsLeftExactlyBy(w: World, op: nat, tx: TxOutcome)
    requires Reachable(w) && Applies(w, op, tx) && Final(w.rows[w.ops[op].pc.v.id].status)
    ensures var Op(call, ToUpdate(base, v, expected, info)) := w.ops[op];
            && (base == w.rows[v.id] <==> expected <= base.version)
            && (expected <= base.version ==>
                  CompletesWith(call, w.rows[v.id], info) || (call.req.Delete? && w.rows[v.id].status != Deleted))
            && (expected > base.version ==> Presented(call.req).Some?)
  {
    hide Reachable;
    hide Inv;
    ReachableInv(w);
    InvOps(w);
    UpdatingIsStaged(w, op);
    FreshExactlyWhenNotAhead(w, op, tx);
    hide OpsOk;
    hide Facts;
    hide Matches;
    var Op(call, ToUpdate(base, v, expected, info)) := w.ops[op];
    StagedPlan(w, call, base, v, expected, info);
    if base == w.rows[v.id] {
      FinalRowIsReopenedExactlyBy(call, base, info, v.updatedAt);
    } else {
      AheadIsPresented(w, call, base, v, expected, info);
    }
  }

  /** Only these three calls can present a version above the one read; a multipart completion
      presents that of a pending row, the first. */
  lemma AheadIsPresented(w: World, call: Call, base: Metadata, v: Metadata, expected: int, info: Option<ObjectInfo>)
    requires Inv(w) && Staged(w, call, base, v, expected, info) && expected > base.version
    ensures Presented(call.req).Some?
  {
    hide OutboxOk;
    hide KeysUnique;
    hide OpsOk;
    hide TablesOk;
    hide Facts;
    PlanNeedsRow(call, base, info, v.updatedAt);
    if call.req.CompleteMultipart? {
      var id := call.req.target.id;
      SnapshotOf(w, id, call.req.expected - 1);
      PendingSnapshotIsFirst(w, id, call.req.expected - 1);
    } else {
      AheadPlan(call, base, info, v.updatedAt);
    }
  }

  lemma PendingSnapshotIsFirst(w: World, id: string, k: int)
    requires TablesOk(w) && id in w.history && 0 <= k < |w.history[id]|
    ensures w.history[id][k].row.status == PendingUpload ==> k == 0
  {
    var h := w.history[id];
    assert HistoryOk(id, h);
    assert StatusOk(h[k].row);
  }

  lemma AheadPlan(call: Call, v: Metadata, info: Option<ObjectInfo>, now: int)
    requires Planned(call, v, info, now).Some? && CasVersion(call, v) > v.version && !call.req.CompleteMultipart?
    ensures Presented(call.req).Some?
  {
  }

  // ---- Deletion, retried ----

  /** The call works on file `id`. */
  predicate Touches(call: Call, id: string) {
    match call.req
    case InitiateSingle(_) => false
    case InitiateMultipart(_, _) => false
    case Cleanup(i, _) => i == id
    case _ => call.req.target.id == id
  }

  ghost predicate OnlyDeletes(run: seq<Label>, id: string) {
    forall i :: 0 <= i < |run| ==> (run[i].Begin? && Touches(run[i].call, id) ==> run[i].call.req.Delete?)
  }

  /** The commits on `id` since its history was `h`. */
  function Since(w: World, id: string, h: seq<Commit>): nat {
    if |Past(w, id)| >= |h| then |Past(w, id)| - |h| else 0
  }

  /** The calls of `past` that are still remembered after `run`: a number freed by a crash may
      be used again, and then stands for a new call. */
  function Survivors(past: set<nat>, run: seq<Label>): set<nat>
    decreases |run|
  {
    if run == [] then past
    else Survivors(if run[0].Crash? then past - {run[0].op} else past, run[1..])
  }

  /** The calls of `past` have nothing left to do on file `id`. */
  ghost predicate Settled(w: World, id: string, past: set<nat>) {
    forall op :: op in past ==> op in w.ops && (Touches(w.ops[op].call, id) ==> w.ops[op].pc.Returned?)
  }

  /** The file's history went on from `h` by a deletion mark, then by the removal, and no
      further; of the calls that are not of the past, storage is asked to delete only after the
      mark, and success is reported only after the removal. */
  ghost predicate DeletionUnderway(w: World, id: string, h: seq<Commit>, past: set<nat>) {
    var n := Since(w, id, h);
    && id in w.history && h <= w.history[id] && n <= 2
    && (n >= 1 ==> MarkedDeleting(w.history[id][|h|]))
    && (n == 2 ==> w.history[id][|h| + 1].call.req.Delete? && w.history[id][|h| + 1].row.status == Deleted)
    && Settled(w, id, past)
    && forall op :: op in w.ops && op !in past && Touches(w.ops[op].call, id) ==> DeletingOp(w.ops[op], n)
  }

  ghost predicate DeletingOp(o: Op, n: nat) {
    && o.call.req.Delete?
    && (o.pc.ToRemove? ==> n >= 1)
    && (o.pc.Returned? && o.pc.response.Row? ==> n == 2)
  }

  /** The file of this history is neither deleting nor deleted. */
  ghost predicate Undeleted(h: seq<Commit>) {
    h != [] && h[|h| - 1].row.status != Deleting && h[|h| - 1].row.status != Deleted
  }

  /** What the row of a file under deletion looks like. */
  lemma DeletionStage(w: World, id: string, h: seq<Commit>, past: set<nat>)
    requires TablesOk(w) && DeletionUnderway(w, id, h, past)
    requires Undeleted(h)
    ensures id in w.rows && |w.history[id]| == |h| + Since(w, id, h)
    ensures Since(w, id, h) == 0 <==> w.rows[id].status != Deleting && w.rows[id].status != Deleted
    ensures Since(w, id, h) == 1 <==> w.rows[id].status == Deleting
    ensures Since(w, id, h) == 2 <==> w.rows[id].status == Deleted
  {
    hide HistoryOk;
    assert w.history[id][|h| - 1] == h[|h| - 1];
  }

  lemma DeleteRead(w: World, o: Op, grant: Grant, dbOk: bool, uuid: string, now: int, id: string, n: nat)
    requires o.pc == Start && o.call.req.Delete? && o.call.req.target.id == id && id in w.rows
    requires n == 1 <==> w.rows[id].status == Deleting
    requires n == 2 <==> w.rows[id].status == Deleted
    requires n <= 2
    ensures DeletingOp(Op(o.call, AfterRead(w.rows, o, grant, dbOk, uuid, now)), n)
  {
    hide Draft;
    hide Planned;
  }

  lemma NamesTouches(call: Call, v: Metadata)
    requires Names(call, v)
    ensures Touches(call, v.id)
  {
  }

  /** One fresh write by a delete call moves the deletion on by one stage. */
  lemma DeleteWrites(w: World, op: nat, tx: TxOutcome, id: string, h: seq<Commit>, past: set<nat>)
    requires Inv(w) && DeletionUnderway(w, id, h, past)
    requires Undeleted(h)
    requires Enabled(w, Update(op, tx)) && FreshWrite(w, Update(op, tx)) && Applies(w, op, tx)
    requires w.ops[op].pc.v.id == id
    ensures DeletionUnderway(Apply(w, Update(op, tx)), id, h, past)
  {
    hide HistoryOk;
    hide OutboxOk;
    hide KeysUnique;
    hide OpOk;
    UpdatingIsStaged(w, op);
    var Op(call, ToUpdate(base, v, expected, info)) := w.ops[op];
    UpdatedRow(w, call, base, v, expected, info);
    NamesTouches(call, base);
    DeletionStage(w, id, h, past);
    DeletePlan(call, base, info, v.updatedAt);
    var w' := Apply(w, Update(op, tx));
    UpdateHistory(w, op, tx);
    OthersUntouched(w, Update(op, tx));
    hide *;
    DeletionMovesOn(w, w', op, id, h, past);
  }

  lemma DeletePlan(call: Call, v: Metadata, info: Option<ObjectInfo>, now: int)
    requires call.req.Delete? && Planned(call, v, info, now).Some?
    ensures v.status != Deleted
    ensures Planned(call, v, info, now).value.status == if v.status == Deleting then Deleted else Deleting
  {
  }

  lemma DeletionMovesOn(w: World, w': World, op: nat, id: string, h: seq<Commit>, past: set<nat>)
    requires DeletionUnderway(w, id, h, past) && op !in past && w.ops.Keys <= w'.ops.Keys
    requires op in w.ops && op in w'.ops && w'.ops[op].call == w.ops[op].call && w.ops[op].call.req.Delete?
    requires forall p :: p in w'.ops && p != op ==> p in w.ops && w'.ops[p] == w.ops[p]
    requires id in w'.history && |w'.history[id]| == |w.history[id]| + 1 && w.history[id] <= w'.history[id]
    requires w'.history[id][|w.history[id]|].call.req.Delete?
    requires Since(w, id, h) < 2
    requires w'.history[id][|w.history[id]|].row.status == if Since(w, id, h) == 0 then Deleting else Deleted
    requires w'.ops[op].pc.Returned? && w'.ops[op].pc.response.Row? ==> Since(w, id, h) == 1
    ensures DeletionUnderway(w', id, h, past)
  {
  }

  lemma OtherFileWritten(w: World, w': World, l: Label, id: string, h: seq<Commit>, past: set<nat>, past': set<nat>)
    requires DeletionUnderway(w, id, h, past) && Past(w', id) == Past(w, id) && (id in w'.history <==> id in w.history)
    requires forall p :: p in w'.ops && (l.Put? || p != l.op) ==> p in w.ops && w'.ops[p] == w.ops[p]
    requires !l.Put? && l.op in w'.ops && l.op !in past' && Touches(w'.ops[l.op].call, id) ==>
      DeletingOp(w'.ops[l.op], Since(w, id, h))
    requires past' == (if l.Crash? then past - {l.op} else past) && Settled(w', id, past')
    ensures DeletionUnderway(w', id, h, past')
  {
    hide Touches;
    hide DeletingOp;
  }

  lemma SamePastOtherwise(w: World, l: Label, id: string)
    requires Enabled(w, l) && id in w.history && id in w.rows
    requires l.Update? && Applies(w, l.op, l.tx) ==> w.ops[l.op].pc.v.id != id
    ensures Past(Apply(w, l), id) == Past(w, id) && id in Apply(w, l).history
  {
    hide KeyTaken;
    hide DbUpdate;
    if !l.Update? && !l.Insert? {
      TablesMoveOnlyBy(w, l);
    }
  }

  /** Past its read, a delete call reports success only through the update that removes. */
  lemma DeleteOpSteps(w: World, l: Label, n: nat)
    requires !l.Put? && !l.Begin? && !l.Read? && !l.Crash? && Enabled(w, l)
    requires OpOk(w, w.ops[l.op]) && DeletingOp(w.ops[l.op], n) && !Applies(w, l.op, if l.Update? then l.tx else RolledBack)
    ensures l.op in Apply(w, l).ops && DeletingOp(Apply(w, l).ops[l.op], n)
  {
    hide Apply;
    hide Planned;
    hide Snapshot;
    hide Names;
    hide Staged;
    hide Drafted;
    hide Facts;
    match l
    case Insert(op, tx) =>
      InsertMoves(w, op, tx);
      DraftedByInitiate(w.ops[op].call, w.ops[op].pc.v);
    case Update(op, tx) => UpdateMoves(w, op, tx);
    case _ => StoreStepIs(w, l);
  }

  lemma StagedId(w: World, call: Call, base: Metadata, v: Metadata, expected: int, info: Option<ObjectInfo>)
    requires Staged(w, call, base, v, expected, info)
    ensures v.id == base.id && Touches(call, v.id)
  {
    PlanKeepsFacts(call, base, info, v.updatedAt);
    SameIdByFacts(base, v);
    NamesTouches(call, base);
  }

  lemma DeleteTarget(call: Call, id: string)
    requires call.req.Delete? && Touches(call, id)
    ensures call.req.target.id == id
  {
  }

  lemma DeleteTouchesOneFile(call: Call, a: string, b: string)
    requires call.req.Delete? && Touches(call, a) && Touches(call, b)
    ensures a == b
  {
  }

  lemma DeletionReads(w: World, l: Label, id: string, n: nat)
    requires Enabled(w, l) && l.Read? && w.ops[l.op].call.req.Delete? && w.ops[l.op].call.req.target.id == id
    requires id in w.rows && n <= 2
    requires n == 1 <==> w.rows[id].status == Deleting
    requires n == 2 <==> w.rows[id].status == Deleted
    ensures l.op in Apply(w, l).ops && DeletingOp(Apply(w, l).ops[l.op], n)
  {
    hide AfterRead;
    ReadMoves(w, l);
    DeleteRead(w, w.ops[l.op], l.grant, l.dbOk, l.id, l.now, id, n);
  }

  /** A call that has returned stays as it is until it crashes. */
  lemma SettledStays(w: World, l: Label, id: string, past: set<nat>)
    requires Enabled(w, l) && Settled(w, id, past)
    ensures Settled(Apply(w, l), id, if l.Crash? then past - {l.op} else past)
  {
    hide Apply;
    hide Touches;
    var past' := if l.Crash? then past - {l.op} else past;
    OthersUntouched(w, l);
    CallsStay(w, l);
    if !l.Put? && !l.Crash? {
      CallsKeepTheirRequest(w, l);
      if l.op in past && Touches(w.ops[l.op].call, id) {
        ReturnedIsOver(w, l);
      }
    }
  }

  lemma ReturnedIsOver(w: World, l: Label)
    requires Enabled(w, l) && !l.Put? && !l.Crash? && l.op in w.ops
    ensures !w.ops[l.op].pc.Returned?
  {
  }

  lemma DeleteOpMoves(w: World, l: Label, id: string, h: seq<Commit>, past: set<nat>)
    requires Inv(w) && DeletionUnderway(w, id, h, past) && Enabled(w, l) && !l.Put? && (l.op !in past || l.Crash?)
    requires Undeleted(h)
    requires l.Begin? && Touches(l.call, id) ==> l.call.req.Delete?
    requires l.Update? && Applies(w, l.op, l.tx) ==> w.ops[l.op].pc.v.id != id
    ensures l.op in Apply(w, l).ops && Touches(Apply(w, l).ops[l.op].call, id) ==>
      DeletingOp(Apply(w, l).ops[l.op], Since(w, id, h))
  {
    hide Apply;
    hide Enabled;
    hide TablesOk;
    hide OutboxOk;
    hide KeysUnique;
    hide OpOk;
    hide Touches;
    hide Staged;
    if l.Crash? {
      CrashForgets(w, l.op);
    } else {
      CallsKeepTheirRequest(w, l);
      if !l.Begin? && Touches(w.ops[l.op].call, id) {
        assert DeletingOp(w.ops[l.op], Since(w, id, h));
        if l.Read? {
          DeletionStage(w, id, h, past);
          DeleteTarget(w.ops[l.op].call, id);
          DeletionReads(w, l, id, Since(w, id, h));
        } else if l.Update? && Applies(w, l.op, l.tx) {
          UpdatingIsStaged(w, l.op);
          var Op(call, ToUpdate(base, v, expected, info)) := w.ops[l.op];
          StagedId(w, call, base, v, expected, info);
          DeleteTouchesOneFile(call, v.id, id);
        } else {
          DeleteOpSteps(w, l, Since(w, id, h));
        }
      }
    }
  }

  lemma DeletionKept(w: World, l: Label, id: string, h: seq<Commit>, past: set<nat>)
    requires Inv(w) && DeletionUnderway(w, id, h, past) && Enabled(w, l) && FreshWrite(w, l)
    requires Undeleted(h)
    requires l.Begin? && Touches(l.call, id) ==> l.call.req.Delete?
    ensures DeletionUnderway(Apply(w, l), id, h, if l.Crash? then past - {l.op} else past)
  {
    hide Apply;
    hide Inv;
    hide Touches;
    hide Enabled;
    hide FreshWrite;
    if l.Update? && Applies(w, l.op, l.tx) && w.ops[l.op].pc.v.id == id {
      DeleteWrites(w, l.op, l.tx, id, h, past);
    } else {
      InvTables(w);
      DeletionStage(w, id, h, past);
      SamePastOtherwise(w, l, id);
      OthersUntouched(w, l);
      SettledStays(w, l, id, past);
      if !l.Put? && (l.op !in past || l.Crash?) {
        DeleteOpMoves(w, l, id, h, past);
      }
      OtherFileWritten(w, Apply(w, l), l, id, h, past, if l.Crash? then past - {l.op} else past);
    }
  }

  lemma {:induction false} DeletionKeptByRun(w: World, run: seq<Label>, id: string, h: seq<Commit>, past: set<nat>)
    requires Inv(w) && DeletionUnderway(w, id, h, past) && FreshRun(w, run) && OnlyDeletes(run, id)
    requires Undeleted(h)
    ensures IsRun(w, run) && Inv(After(w, run)) && DeletionUnderway(After(w, run), id, h, Survivors(past, run))
    decreases |run|
  {
    hide Inv;
    hide DeletionUnderway;
    hide Enabled;
    hide Apply;
    hide FreshWrite;
    hide Touches;
    if run != [] {
      DeletionKept(w, run[0], id, h, past);
      StepKeepsInv(w, run[0]);
      DeletionKeptByRun(Apply(w, run[0]), run[1..], id, h, if run[0].Crash? then past - {run[0].op} else past);
    }
  }

  /** How far the deletion of `id` has come after `run`, and what its calls have done by then. */
  ghost predicate DeletedSoFar(w: World, w': World, id: string, past: set<nat>)
    requires id in w.rows && id in w'.rows
  {
    var n := w'.rows[id].version - w.rows[id].version;
    && 0 <= n <= 2
    && (n == 0 ==> w'.rows[id] == w.rows[id])
    && (n == 1 <==> w'.rows[id].status == Deleting)
    && (n == 2 <==> w'.rows[id].status == Deleted)
    && forall op :: op in w'.ops && op !in past && Touches(w'.ops[op].call, id) ==>
         && w'.ops[op].call.req.Delete?
         && (w'.ops[op].pc.ToRemove? ==> n >= 1)
         && (w'.ops[op].pc.Returned? && w'.ops[op].pc.response.Row? ==> n == 2)
  }

  lemma StageIsSoFar(w: World, w': World, id: string, past: set<nat>)
    requires TablesOk(w) && TablesOk(w') && id in w.rows && id in w.history
    requires w.rows[id].status != Deleting && w.rows[id].status != Deleted
    requires DeletionUnderway(w', id, w.history[id], past)
    ensures id in w'.rows && DeletedSoFar(w, w', id, past)
  {
    hide HistoryOk;
    hide Touches;
    RowIsSnapshot(w, id);
    DeletionStage(w', id, w.history[id], past);
    RowIsSnapshot(w', id);
  }

  lemma NothingDeletedYet(w: World, id: string)
    requires TablesOk(w) && id in w.rows && w.rows[id].status != Deleting && w.rows[id].status != Deleted
    requires forall op :: op in w.ops && Touches(w.ops[op].call, id) ==> w.ops[op].pc.Returned?
    ensures id in w.history && Undeleted(w.history[id]) && DeletionUnderway(w, id, w.history[id], w.ops.Keys)
  {
    hide HistoryOk;
    hide Touches;
    RowIsSnapshot(w, id);
  }

  /** Retryable delete. From a row that is neither deleting nor deleted and that no call is at
      work on, as long as only deletes are begun on the file and no write is stale, whatever
      fails or crashes: the commits on it are none, the mark, or the mark and the removal; a
      pending storage.Delete implies the mark is committed; a call begun in the run that
      reports success implies both are. */
  lemma RetryableDelete(w: World, run: seq<Label>, id: string)
    requires Reachable(w) && id in w.rows && w.rows[id].status != Deleting && w.rows[id].status != Deleted
    requires forall op :: op in w.ops && Touches(w.ops[op].call, id) ==> w.ops[op].pc.Returned?
    requires FreshRun(w, run) && OnlyDeletes(run, id)
    ensures IsRun(w, run) && id in w.history && id in After(w, run).rows
    ensures DeletionUnderway(After(w, run), id, w.history[id], Survivors(w.ops.Keys, run))
    ensures DeletedSoFar(w, After(w, run), id, Survivors(w.ops.Keys, run))
  {
    hide Reachable;
    hide Touches;
    hide Inv;
    hide FreshRun;
    hide IsRun;
    hide OnlyDeletes;
    hide Undeleted;
    hide DeletionUnderway;
    hide DeletedSoFar;
    hide Survivors;
    ReachableInv(w);
    InvTables(w);
    NothingDeletedYet(w, id);
    DeletionKeptByRun(w, run, id, w.history[id], w.ops.Keys);
    InvTables(After(w, run));
    StageIsSoFar(w, After(w, run), id, Survivors(w.ops.Keys, run));
  }

  /** In particular for a ready file of a service at rest, calls coming one after the other. */
  lemma ReadyFileIsDeletedInTwoCommits(w: World, run: seq<Label>, id: string)
    requires Reachable(w) && Quiet(w) && id in w.rows && w.rows[id].status == Ready
    requires SerialRun(w, run) && OnlyDeletes(run, id)
    ensures IsRun(w, run) && id in After(w, run).rows
    ensures DeletedSoFar(w, After(w, run), id, Survivors(w.ops.Keys, run))
  {
    SerialDeleteIsFresh(w, run);
    RetryableDelete(w, run, id);
  }

  lemma {:induction false} FreshRunsCompose(w: World, first: seq<Label>, second: seq<Label>)
    requires FreshRun(w, first) && IsRun(w, first) && FreshRun(After(w, first), second)
    ensures FreshRun(w, first + second)
    decreases |first|
  {
    hide Enabled;
    hide Apply;
    hide FreshWrite;
    if first == [] {
      assert first + second == second;
    } else {
      assert (first + second)[1..] == first[1..] + second;
      FreshRunsCompose(Apply(w, first[0]), first[1..], second);
    }
  }

  /** Once the deletion is through, further deletes change nothing. */
  lemma FurtherDeletesChangeNothing(w: World, first: seq<Label>, second: seq<Label>, id: string)
    requires Reachable(w) && id in w.rows && w.rows[id].status != Deleting && w.rows[id].status != Deleted
    requires forall op :: op in w.ops && Touches(w.ops[op].call, id) ==> w.ops[op].pc.Returned?
    requires FreshRun(w, first) && IsRun(w, first) && FreshRun(After(w, first), second) && OnlyDeletes(first + second, id)
    requires id in After(w, first).rows && After(w, first).rows[id].status == Deleted
    ensures IsRun(After(w, first), second) && id in After(After(w, first), second).rows
    ensures After(After(w, first), second).rows[id] == After(w, first).rows[id]
  {
    hide Touches;
    hide Enabled;
    hide Apply;
    hide FreshWrite;
    hide DeletionUnderway;
    var w1 := After(w, first);
    FreshRunIsRun(w1, second);
    RunsCompose(w, first, second);
    FreshRunsCompose(w, first, second);
    assert OnlyDeletes(first, id) by {
      forall i | 0 <= i < |first| ensures first[i] == (first + second)[i] {
      }
    }
    RetryableDelete(w, first, id);
    RetryableDelete(w, first + second, id);
    ReachableAfter(w, first);
    DeclaredFactsNeverChange(w1, second, id);
  }

  /** In particular when the calls come one after the other, whatever versions they present. */
  lemma SerialDeleteIsFresh(w: World, run: seq<Label>)
    requires Reachable(w) && Quiet(w) && SerialRun(w, run)
    ensures FreshRun(w, run)
  {
    ReachableInv(w);
    assert Solo(w);
    SerialRunIsFresh(w, run);
  }
}
