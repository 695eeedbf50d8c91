/** What holds in every run of any number of concurrent calls, with failures anywhere and
    whatever versions the callers expect. */
module History {
  import opened Basics
  import opened Text
  import opened Model
  import opened Protocol
  import opened Invariants

  ghost predicate Reachable(w: World) {
    exists run :: IsRun(EMPTY, run) && After(EMPTY, run) == w
  }

  lemma ReachableInv(w: World)
    requires Reachable(w)
    ensures Inv(w)
  {
    hide Inv;
    var run :| IsRun(EMPTY, run) && After(EMPTY, run) == w;
    EmptyInv();
    RunKeepsInv(EMPTY, run);
  }

  lemma {:induction false} RunsCompose(w: World, first: seq<Label>, second: seq<Label>)
    requires IsRun(w, first) && IsRun(After(w, first), second)
    ensures IsRun(w, first + second) && After(w, first + second) == After(After(w, first), second)
    decreases |first|
  {
    hide Enabled;
    hide Apply;
    if first == [] {
      assert first + second == second;
    } else {
      assert (first + second)[1..] == first[1..] + second;
      RunsCompose(Apply(w, first[0]), first[1..], second);
    }
  }

  lemma ReachableAfter(w: World, run: seq<Label>)
    requires Reachable(w) && IsRun(w, run)
    ensures Reachable(After(w, run))
  {
    hide Enabled;
    hide Apply;
    var start :| IsRun(EMPTY, start) && After(EMPTY, start) == w;
    RunsCompose(EMPTY, start, run);
  }

  /** A run one step longer. */
  lemma Snoc(w: World, run: seq<Label>, l: Label)
    requires IsRun(w, run) && Enabled(After(w, run), l)
    ensures IsRun(w, run + [l]) && After(w, run + [l]) == Apply(After(w, run), l)
  {
    hide Enabled;
    hide Apply;
    var w1 := After(w, run);
    assert [l][1..] == [];
    assert IsRun(Apply(w1, l), []);
    assert IsRun(w1, [l]) && After(w1, [l]) == Apply(w1, l);
    RunsCompose(w, run, [l]);
  }

  lemma ReachedBy(run: seq<Label>)
    requires IsRun(EMPTY, run)
    ensures Reachable(After(EMPTY, run))
  {
  }

  lemma ReachableEmpty()
    ensures Reachable(EMPTY)
  {
    assert IsRun(EMPTY, []) && After(EMPTY, []) == EMPTY;
  }

  lemma ReachableStep(w: World, l: Label)
    requires Reachable(w) && Enabled(w, l)
    ensures Reachable(Apply(w, l))
  {
    hide Enabled;
    hide Apply;
    var run :| IsRun(EMPTY, run) && After(EMPTY, run) == w;
    Snoc(EMPTY, run, l);
  }

  /** The events of a file are the file's history: one event for each version 1, 2, ... up to
      the row's, in that order, each the projection of the row as it stood; no other event. */
  lemma OutboxIsHistory(w: World, id: string)
    requires Reachable(w)
    ensures id !in w.rows ==> EventsOf(w.outbox, id) == []
    ensures id in w.rows ==>
      && id in w.history
      && |EventsOf(w.outbox, id)| == |w.history[id]| == w.rows[id].version >= 1
      && w.history[id][w.rows[id].version - 1].row == w.rows[id]
      && forall k :: 0 <= k < w.rows[id].version ==>
           && EventsOf(w.outbox, id)[k] == Project(w.history[id][k].row)
           && Tells(EventsOf(w.outbox, id)[k], w.history[id][k].row)
           && EventsOf(w.outbox, id)[k].file.version == k + 1
  {
    hide Tells;
    ReachableInv(w);
    assert EventsOf(w.outbox, id) == Projections(Past(w, id));
    if id in w.rows {
      RowIsSnapshot(w, id);
      assert HistoryOk(id, w.history[id]);
      forall k | 0 <= k < |w.history[id]| ensures Tells(Project(w.history[id][k].row), w.history[id][k].row) {
        ProjectionTells(Project(w.history[id][k].row), w.history[id][k].row);
      }
    }
  }

  /** The same without the auxiliary history: whatever row the table holds now, its event sits
      at the place its version names, now and in every later state. */
  lemma EveryRowVersionHasItsEvent(w: World, run: seq<Label>, id: string)
    requires Reachable(w) && IsRun(w, run) && id in w.rows
    ensures var events := EventsOf(After(w, run).outbox, id);
            && 1 <= w.rows[id].version <= |events|
            && events[w.rows[id].version - 1] == Project(w.rows[id]) && Tells(events[w.rows[id].version - 1], w.rows[id])
  {
    ProjectionTells(Project(w.rows[id]), w.rows[id]);
    ReachableInv(w);
    RunKeepsInv(w, run);
    RowIsSnapshot(w, id);
    var w' := After(w, run);
    assert EventsOf(w'.outbox, id) == Projections(Past(w', id));
  }

  ghost predicate Numbered(events: seq<Event>) {
    forall k :: 0 <= k < |events| ==> events[k].file.version == k + 1
  }

  lemma {:induction false} EventsFollowCommitOrder(outbox: seq<Event>, id: string, i: int)
    requires Numbered(EventsOf(outbox, id))
    requires 0 <= i < |outbox| && outbox[i].file.id == id
    ensures 1 <= outbox[i].file.version <= |EventsOf(outbox, id)|
    ensures forall j :: i < j < |outbox| && outbox[j].file.id == id ==> outbox[i].file.version < outbox[j].file.version
    decreases |outbox|
  {
    var last := |outbox| - 1;
    var rest := outbox[..last];
    var events := EventsOf(outbox, id);
    assert forall k :: 0 <= k < |EventsOf(rest, id)| ==> EventsOf(rest, id)[k] == events[k];
    if i < last {
      EventsFollowCommitOrder(rest, id, i);
      if outbox[last].file.id == id {
        assert events[|events| - 1] == outbox[last];
      }
    } else {
      assert events[|events| - 1] == outbox[last];
    }
  }

  /** No two events carry the same file and version, and a file's events stand in version order. */
  lemma EventsAreUniqueAndOrdered(w: World, i: int, j: int)
    requires Reachable(w) && 0 <= i < j < |w.outbox| && w.outbox[i].file.id == w.outbox[j].file.id
    ensures w.outbox[i].file.version < w.outbox[j].file.version
  {
    var id := w.outbox[i].file.id;
    OutboxIsHistory(w, id);
    EventsFollowCommitOrder(w.outbox, id, i);
  }

  lemma LaterRow(w: World, w': World, id: string)
    requires TablesOk(w) && TablesOk(w') && Extends(w, w') && id in w.rows
    ensures id in w'.rows && Facts(w'.rows[id]) == Facts(w.rows[id])
    ensures w.rows[id].version <= w'.rows[id].version
    ensures w.rows[id].version == w'.rows[id].version ==> w'.rows[id] == w.rows[id]
  {
    hide Facts;
    hide HistoryOk;
    CurrentFacts(w, id);
    CurrentFacts(w', id);
    RowIsSnapshot(w, id);
    RowIsSnapshot(w', id);
  }

  /** Size, checksum, mode, session, part size, part count, expiry, key, scope and object key
      keep their inserted values, although every update rewrites seven of them from a
      possibly stale snapshot; versions never go down and no row disappears. */
  lemma DeclaredFactsNeverChange(w: World, run: seq<Label>, id: string)
    requires Reachable(w) && IsRun(w, run) && id in w.rows
    ensures var w' := After(w, run);
            && id in w'.rows && Facts(w'.rows[id]) == Facts(w.rows[id])
            && w.rows[id].version <= w'.rows[id].version
            && (w.rows[id].version == w'.rows[id].version ==> w'.rows[id] == w.rows[id])
  {
    hide Inv;
    hide IsRun;
    hide Facts;
    ReachableInv(w);
    RunKeepsInv(w, run);
    InvTables(w);
    InvTables(After(w, run));
    LaterRow(w, After(w, run), id);
  }

  /** Commit `k` found a pending row and left one that is not. */
  predicate LeavesPending(h: seq<Commit>, k: int)
    requires 0 < k < |h|
  {
    h[k - 1].row.status == PendingUpload && h[k].row.status != PendingUpload
  }

  /** A row is pending exactly while its version is 1, so exactly one of all commits on an
      upload takes it out of pending; expired rows have version 2; neither was ever scanned. */
  lemma PendingIsVersionOne(w: World, id: string)
    requires Reachable(w) && id in w.rows
    ensures StatusOk(w.rows[id])
    ensures id in w.history
    ensures forall k :: 0 < k < |w.history[id]| ==> (LeavesPending(w.history[id], k) <==> k == 1)
    ensures forall k :: 0 <= k < |w.history[id]| ==> StatusOk(w.history[id][k].row)
  {
    ReachableInv(w);
    RowIsSnapshot(w, id);
    var h := w.history[id];
    assert HistoryOk(id, h);
    assert StatusOk(h[|h| - 1].row);
    forall k | 0 < k < |h| ensures LeavesPending(h, k) <==> k == 1 {
      assert StatusOk(h[k - 1].row) && StatusOk(h[k].row);
    }
  }

  // ---- What commits rest on ----

  lemma CommitIsDerived(w: World, id: string, k: int)
    requires Reachable(w) && id in w.history && 0 < k < |w.history[id]|
    ensures var h := w.history[id];
            && 1 <= h[k].seen <= k
            && Planned(h[k].call, h[h[k].seen - 1].row, h[k].info, h[k].row.updatedAt) == Some(h[k].row.(version := h[k].seen))
            && Facts(h[h[k].seen - 1].row) == Facts(h[k].row)
  {
    hide Planned;
    hide Facts;
    hide Drafted;
    hide Accounts;
    ReachableInv(w);
    assert HistoryOk(id, w.history[id]);
    assert Derived(w.history[id], k);
  }

  /** A completion is only ever committed with the declared checksum presented, for an object of
      the declared size whose own checksum, if it has one, is that too. */
  lemma CompletionsAgree(w: World, id: string, k: int)
    requires Reachable(w) && id in w.history && 0 < k < |w.history[id]|
    requires w.history[id][k].call.req.Complete? || w.history[id][k].call.req.CompleteMultipart?
    ensures var c := w.history[id][k];
            && Lower(TrimSpace(c.call.req.checksum)) == c.row.checksum
            && c.info.Some? && c.info.value.size == c.row.size
            && (c.info.value.checksum == "" || c.info.value.checksum == c.row.checksum)
            && c.row.status == Ready && c.row.scan == if c.call.cfg.scanRequired then ScanPending else ScanSkipped
  {
    hide Reachable;
    hide Lower;
    hide TrimSpace;
    CommitIsDerived(w, id, k);
    hide Facts;
    var h := w.history[id];
    SameIdByFacts(h[h[k].seen - 1].row, h[k].row);
  }

  /** Only an upload whose time is over is ever expired, and only by a cleanup. */
  lemma ExpiredWasOver(w: World, id: string, k: int)
    requires Reachable(w) && id in w.history && 0 < k < |w.history[id]| && w.history[id][k].row.status == Expired
    ensures var c := w.history[id][k];
            c.call.req.Cleanup? && c.row.expiresAt.Some? && c.row.expiresAt.value <= c.call.req.before
  {
    hide Reachable;
    hide Matches;
    CommitIsDerived(w, id, k);
    var h := w.history[id];
    assert Facts(h[h[k].seen - 1].row).expiresAt == h[h[k].seen - 1].row.expiresAt;
    assert Facts(h[k].row).expiresAt == h[k].row.expiresAt;
  }

  /** Only the commit of a scan report on a ready row that awaited it leaves its verdict. */
  lemma VerdictsAreReported(w: World, id: string, k: int)
    requires Reachable(w) && id in w.history && 0 < k < |w.history[id]| && w.history[id][k].call.req.Report?
    ensures var h := w.history[id];
            && h[k].row.status == Ready && h[k].row.scan == h[k].call.req.result
            && (h[k].row.scan == ScanClean || h[k].row.scan == ScanInfected)
            && 1 <= h[k].seen <= k && h[h[k].seen - 1].row.status == Ready && h[h[k].seen - 1].row.scan == ScanPending
  {
    hide Reachable;
    CommitIsDerived(w, id, k);
    hide Facts;
  }

  /** The commit behind a snapshot. */
  ghost function CommitOf(w: World, v: Metadata): Commit
    requires Snapshot(w, v)
  {
    w.history[v.id][v.version - 1]
  }

  ghost predicate ScannedClean(c: Commit) {
    c.call.req.Report? && c.call.req.result == ScanClean
  }

  ghost predicate CompletedUnscanned(c: Commit) {
    Completing(c.call) && !c.call.cfg.scanRequired
  }

  lemma DownloadableMeans(c: Commit)
    requires Accounts(c) && Downloadable(c.row)
    ensures ScannedClean(c) || CompletedUnscanned(c)
  {
  }

  lemma DownloadableCommit(w: World, v: Metadata)
    requires TablesOk(w) && Snapshot(w, v) && Downloadable(v)
    ensures ScannedClean(CommitOf(w, v)) || CompletedUnscanned(CommitOf(w, v))
  {
    var h := w.history[v.id];
    assert HistoryOk(v.id, h);
    hide TablesOk;
    if v.version > 1 {
      HistoryIsAccounted(v.id, h, v.version - 1);
      hide HistoryOk;
      DownloadableMeans(h[v.version - 1]);
    } else {
      NeverBornDownloadable(v.id, h);
    }
  }

  lemma NeverBornDownloadable(id: string, h: seq<Commit>)
    requires HistoryOk(id, h)
    ensures !Downloadable(h[0].row)
  {
    assert StatusOk(h[0].row);
  }

  /** A download URL is only issued for a row whose last commit was a clean scan report or a
      completion with scanning off. */
  lemma DownloadProvenance(w: World, op: nat)
    requires Reachable(w) && op in w.ops && w.ops[op].call.req.Download?
    requires w.ops[op].pc.Returned? && w.ops[op].pc.response.Url?
    ensures var v := w.ops[op].pc.response.file;
            && Snapshot(w, v) && Downloadable(v) && Names(w.ops[op].call, v)
            && (ScannedClean(CommitOf(w, v)) || CompletedUnscanned(CommitOf(w, v)))
  {
    ReachableInv(w);
    assert OpOk(w, w.ops[op]);
    DownloadableCommit(w, w.ops[op].pc.response.file);
  }

  /** Every instance that ever served a call has scanning on. */
  ghost predicate AlwaysScanning(w: World) {
    && (forall op :: op in w.ops ==> w.ops[op].call.cfg.scanRequired)
    && (forall id, k :: id in w.history && 0 <= k < |w.history[id]| ==> w.history[id][k].call.cfg.scanRequired)
  }

  ghost predicate BeginsScanning(run: seq<Label>) {
    forall i :: 0 <= i < |run| ==> (run[i].Begin? ==> run[i].call.cfg.scanRequired)
  }

  lemma AppendKeepsScanning(w: World, w': World, id: string, c: Commit)
    requires AlwaysScanning(w) && c.call.cfg.scanRequired
    requires w'.history == w.history[id := Past(w, id) + [c]] || w'.history == w.history[id := [c]]
    requires forall op :: op in w'.ops ==> w'.ops[op].call.cfg.scanRequired
    ensures AlwaysScanning(w')
  {
  }

  lemma StepKeepsScanning(w: World, l: Label)
    requires Enabled(w, l) && AlwaysScanning(w) && (l.Begin? ==> l.call.cfg.scanRequired)
    ensures AlwaysScanning(Apply(w, l))
  {
    CallsKeepTheirSettings(w, l);
    if l.Insert? || l.Update? {
      hide DbUpdate;
      hide CanInsert;
      hide CanUpdate;
      var v := w.ops[l.op].pc.v;
      if Apply(w, l).history != w.history {
        var h' := Apply(w, l).history[v.id];
        AppendKeepsScanning(w, Apply(w, l), v.id, h'[|h'| - 1]);
      }
    } else {
      TablesMoveOnlyBy(w, l);
    }
  }

  lemma CallsKeepTheirSettings(w: World, l: Label)
    requires Enabled(w, l) && forall op :: op in w.ops ==> w.ops[op].call.cfg.scanRequired
    requires l.Begin? ==> l.call.cfg.scanRequired
    ensures forall op :: op in Apply(w, l).ops ==> Apply(w, l).ops[op].call.cfg.scanRequired
  {
    hide Apply;
    hide Enabled;
    OthersUntouched(w, l);
    if l.Crash? {
      CrashForgets(w, l.op);
    } else if !l.Put? {
      CallsKeepTheirRequest(w, l);
    }
  }

  lemma {:induction false} RunKeepsScanning(w: World, run: seq<Label>)
    requires IsRun(w, run) && AlwaysScanning(w) && BeginsScanning(run)
    ensures AlwaysScanning(After(w, run))
    decreases |run|
  {
    hide AlwaysScanning;
    hide Apply;
    hide Enabled;
    if run != [] {
      StepKeepsScanning(w, run[0]);
      RunKeepsScanning(Apply(w, run[0]), run[1..]);
    }
  }

  /** If scanning is on everywhere, no row is ever skipped and a downloadable row was scanned clean. */
  lemma ScanningEverywhere(run: seq<Label>, v: Metadata)
    requires IsRun(EMPTY, run) && BeginsScanning(run) && Snapshot(After(EMPTY, run), v)
    ensures v.scan != ScanSkipped
    ensures Downloadable(v) ==> ScannedClean(CommitOf(After(EMPTY, run), v))
  {
    hide IsRun;
    hide After;
    hide Inv;
    hide AlwaysScanning;
    hide BeginsScanning;
    hide Snapshot;
    NothingScannedYet();
    RunKeepsScanning(EMPTY, run);
    EmptyInv();
    RunKeepsInv(EMPTY, run);
    InvTables(After(EMPTY, run));
    ScannedSnapshot(After(EMPTY, run), v);
  }

  lemma NothingScannedYet()
    ensures AlwaysScanning(EMPTY)
  {
  }

  lemma ScannedSnapshot(w: World, v: Metadata)
    requires TablesOk(w) && AlwaysScanning(w) && Snapshot(w, v)
    ensures v.scan != ScanSkipped
    ensures Downloadable(v) ==> ScannedClean(CommitOf(w, v))
  {
    hide HistoryOk;
    hide Downloadable;
    hide ScannedClean;
    NeverSkipped(v.id, w.history[v.id], v.version - 1);
    if Downloadable(v) {
      DownloadableCommit(w, v);
      assert w.history[v.id][v.version - 1].call.cfg.scanRequired;
    }
  }

  lemma {:induction false} NeverSkipped(id: string, h: seq<Commit>, k: int)
    requires HistoryOk(id, h) && 0 <= k < |h|
    requires forall j :: 0 <= j < |h| ==> h[j].call.cfg.scanRequired
    ensures h[k].row.scan != ScanSkipped
  {
    hide Drafted;
    assert StatusOk(h[k].row);
    if k > 0 {
      assert Derived(h, k);
      NeverSkipped(id, h, h[k].seen - 1);
    }
  }

  /** Step `l` is the read of an initiation that passes its checks and presents the key of `v`. */
  ghost predicate Replays(w: World, l: Label, v: Metadata) {
    && l.Read? && l.dbOk && Enabled(w, l) && w.ops[l.op].pc == Start
    && var call := w.ops[l.op].call;
       && (call.req.InitiateSingle? || call.req.InitiateMultipart?)
       && Draft(call, l.grant, l.id, l.now).Ok?
       && v.tenant == TrimSpace(call.req.upload.tenant) && v.application == TrimSpace(call.req.upload.application)
       && v.idempotencyKey == TrimSpace(call.req.upload.key)
  }

  /** Replaying an initiation: whoever presents a key that has a row gets that row. A single
      replay goes on to sign for it, a multipart one returns it or is refused; tables, events
      and sessions stay as they are. */
  lemma ReplayFindsTheFile(w: World, l: Label, id: string)
    requires Inv(w) && id in w.rows && Replays(w, l, w.rows[id])
    ensures var w' := Apply(w, l);
            && w'.rows == w.rows && w'.outbox == w.outbox && w'.sessions == w.sessions && w'.log == w.log
            && w'.ops[l.op].pc ==
               if w.ops[l.op].call.req.InitiateSingle? then ToSign(w.rows[id])
               else if w.rows[id].mode == Multipart && w.rows[id].status == PendingUpload then Returned(Row(w.rows[id]))
               else Returned(Failed(Conflict))
  {
    hide Draft;
    hide OpsOk;
    hide OutboxOk;
    hide TablesOk;
    hide TrimSpace;
    DraftKey(w.ops[l.op].call, l.grant, l.id, l.now);
    var d := Draft(w.ops[l.op].call, l.grant, l.id, l.now).value;
    KeyHasOneRow(w, id, d);
  }

  /** A draft has the key that was sent. */
  lemma DraftKey(call: Call, grant: Grant, id: string, now: int)
    requires call.req.InitiateSingle? || call.req.InitiateMultipart?
    requires Draft(call, grant, id, now).Ok?
    ensures var (d, u) := (Draft(call, grant, id, now).value, call.req.upload);
            d.tenant == TrimSpace(u.tenant) && d.application == TrimSpace(u.application) && d.idempotencyKey == TrimSpace(u.key)
  {
    hide Draft;
    hide TrimSpace;
    DraftHolds(call, grant, id, now);
  }

  lemma KeyHasOneRow(w: World, id: string, d: Metadata)
    requires KeysUnique(w) && id in w.rows && SameKey(w.rows[id], d)
    ensures FindByKey(w.rows, d.tenant, d.application, d.idempotencyKey) == Some(w.rows[id])
  {
    TakenBy(w.rows, id, d);
    forall i | i in w.rows && HasKey(w.rows[i], d.tenant, d.application, d.idempotencyKey) ensures i == id {
      assert SameKey(w.rows[i], w.rows[id]);
    }
  }

  /** Once a key has a row, every later replay of the key, after any run of other calls, is
      answered with the file of that row, and no other row ever takes the key. */
  lemma IdempotentInitiation(w: World, run: seq<Label>, l: Label, id: string)
    requires Reachable(w) && IsRun(w, run) && id in w.rows && Replays(After(w, run), l, w.rows[id])
    ensures var w1 := After(w, run);
            var w2 := Apply(w1, l);
            && w2.rows == w1.rows && w2.outbox == w1.outbox && w2.sessions == w1.sessions
            && id in w1.rows
            && (forall i :: i in w1.rows && SameKey(w1.rows[i], w.rows[id]) ==> i == id)
            && w2.ops[l.op].pc ==
               if w1.ops[l.op].call.req.InitiateSingle? then ToSign(w1.rows[id])
               else if w1.rows[id].mode == Multipart && w1.rows[id].status == PendingUpload then Returned(Row(w1.rows[id]))
               else Returned(Failed(Conflict))
  {
    hide Draft;
    hide Apply;
    hide Enabled;
    ReachableInv(w);
    RunKeepsInv(w, run);
    var w1 := After(w, run);
    DeclaredFactsNeverChange(w, run, id);
    SameIdByFacts(w.rows[id], w1.rows[id]);
    hide Facts;
    hide TablesOk;
    hide OutboxOk;
    hide OpsOk;
    forall i | i in w1.rows && SameKey(w1.rows[i], w.rows[id]) ensures i == id {
      assert SameKey(w1.rows[i], w1.rows[id]);
    }
    ReplayFindsTheFile(w1, l, id);
  }

  /** The call signs for row `v`, or has done so. */
  predicate SignsFor(o: Op, v: Metadata) {
    o.pc == ToSign(v) || o.pc == Returned(Url(v)) || o.pc == Returned(Failed(Unavailable))
  }

  lemma SigningStep(w: World, l: Label, op: nat, v: Metadata)
    requires Enabled(w, l) && l != Crash(op) && op in w.ops && SignsFor(w.ops[op], v)
    ensures op in Apply(w, l).ops && SignsFor(Apply(w, l).ops[op], v)
  {
    hide Apply;
    CallsStay(w, l);
    OthersUntouched(w, l);
    if !l.Put? && l.op == op {
      SignAnswers(w, op, l, v);
    }
  }

  lemma SignAnswers(w: World, op: nat, l: Label, v: Metadata)
    requires Enabled(w, l) && !l.Put? && l.op == op && l != Crash(op) && op in w.ops && SignsFor(w.ops[op], v)
    ensures l.Sign? && w.ops[op].pc == ToSign(v) && op in Apply(w, l).ops
    ensures Apply(w, l).ops[op].pc == Returned(if l.ok then Url(v) else Failed(Unavailable))
  {
  }

  lemma {:induction false} SigningIsAnswered(w: World, run: seq<Label>, op: nat, v: Metadata)
    requires IsRun(w, run) && op in w.ops && SignsFor(w.ops[op], v) && Crash(op) !in run
    ensures op in After(w, run).ops && SignsFor(After(w, run).ops[op], v)
    decreases |run|
  {
    hide Enabled;
    hide Apply;
    hide SignsFor;
    if run != [] {
      SigningStep(w, run[0], op, v);
      SigningIsAnswered(Apply(w, run[0]), run[1..], op, v);
    }
  }

  /** Carried to its end: a single replay, whatever other calls do meanwhile, is answered with a
      URL for the file that had the key all along, or with an error of the signer (SignAnswers
      says with which). */
  lemma IdempotentAnswer(w: World, run: seq<Label>, w1: World, l: Label, w2: World, rest: seq<Label>, id: string)
    requires Reachable(w) && id in w.rows && IsRun(w, run) && After(w, run) == w1
    requires l.Read? && Enabled(w1, l) && Apply(w1, l) == w2 && w1.ops[l.op].call.req.InitiateSingle?
    requires Replays(w1, l, w.rows[id])
    requires IsRun(w2, rest) && Crash(l.op) !in rest
    ensures id in w1.rows && Facts(w1.rows[id]) == Facts(w.rows[id])
    ensures l.op in After(w2, rest).ops && SignsFor(After(w2, rest).ops[l.op], w1.rows[id])
  {
    hide Apply;
    hide IsRun;
    hide After;
    hide Replays;
    hide Facts;
    hide Reachable;
    IdempotentInitiation(w, run, l, id);
    DeclaredFactsNeverChange(w, run, id);
    CallsKeepTheirRequest(w1, l);
    SigningIsAnswered(w2, rest, l.op, w1.rows[id]);
  }

  /** At most one version-1 event exists for a key. */
  lemma OneCreationEventPerKey(w: World, i: int, j: int)
    requires Reachable(w) && 0 <= i < |w.outbox| && 0 <= j < |w.outbox|
    requires w.outbox[i].file.version == 1 && w.outbox[j].file.version == 1
    ensures w.outbox[i].file.id in w.rows && w.outbox[j].file.id in w.rows
    ensures SameKey(w.rows[w.outbox[i].file.id], w.rows[w.outbox[j].file.id]) ==> i == j
  {
    ReachableInv(w);
    OutboxIsHistory(w, w.outbox[i].file.id);
    OutboxIsHistory(w, w.outbox[j].file.id);
    EventOfFile(w.outbox, i);
    EventOfFile(w.outbox, j);
    if w.outbox[i].file.id == w.outbox[j].file.id {
      if i < j {
        EventsAreUniqueAndOrdered(w, i, j);
      } else if j < i {
        EventsAreUniqueAndOrdered(w, j, i);
      }
    }
  }

  lemma {:induction false} EventOfFile(outbox: seq<Event>, i: int)
    requires 0 <= i < |outbox|
    ensures EventsOf(outbox, outbox[i].file.id) != []
    decreases |outbox|
  {
    if i < |outbox| - 1 {
      EventOfFile(outbox[..|outbox| - 1], i);
    }
  }
}
