/** The two stores the service works against: the SQL repository with its transactions, and
    object storage. Every external failure is an input of the call that meets it. */
module Stores {
  import opened Basics
  import opened Completion
  import opened Model
  import opened Protocol
  import opened Ordering
  import opened Listing

  /** What goes wrong in one transaction: begin, the row statement, the event statement, commit. */
  datatype TxFaults = TxFaults(begin: bool, write: bool, event: bool, commit: TxOutcome)

  /** The fate of a transaction whose row statement finds its row, or not. */
  function Effect(f: TxFaults, found: bool): TxOutcome {
    if !f.begin || !f.write then RolledBack
    else if !found then Committed
    else if !f.event then RolledBack
    else f.commit
  }

  datatype TxResult = TxOk | TxStale | TxError

  class SQLRepository {
    /** Committed state. */
    var rows: map<string, Metadata>
    var outbox: seq<Event>
    /** The working copy of the open transaction. */
    var txRows: map<string, Metadata>
    var txOutbox: seq<Event>

    constructor ()
      ensures rows == map[] && outbox == []
    {
      rows, outbox, txRows, txOutbox := map[], [], map[], [];
    }

    method Get(t: Target) returns (r: Option<Metadata>)
      ensures r == Find(rows, t)
    {
      if t.id in rows && rows[t.id].tenant == t.tenant && rows[t.id].application == t.application {
        return Some(rows[t.id]);
      }
      r := None;
    }

    /** Scans the table, as a unique index would not need to. */
    method GetByKey(tenant: string, application: string, key: string) returns (r: Option<Metadata>)
      requires forall i, j :: (i in rows && j in rows && HasKey(rows[i], tenant, application, key)
                               && HasKey(rows[j], tenant, application, key)) ==> i == j
      ensures r == FindByKey(rows, tenant, application, key)
    {
      var left := rows.Keys;
      while left != {}
        invariant left <= rows.Keys
        invariant forall i :: i in rows && i !in left ==> !HasKey(rows[i], tenant, application, key)
        decreases |left|
      {
        var id :| id in left;
        if HasKey(rows[id], tenant, application, key) {
          return Some(rows[id]);
        }
        left := left - {id};
      }
      r := None;
    }

    method Begin()
      modifies `txRows, `txOutbox
      ensures txRows == rows && txOutbox == outbox
    {
      txRows, txOutbox := rows, outbox;
    }

    /** INSERT under the primary key and UNIQUE (tenant_id, application_id, idempotency_key). */
    method Insert(v: Metadata) returns (ok: bool)
      modifies `txRows
      ensures ok <==> v.id !in old(txRows) && !KeyTaken(old(txRows), v.tenant, v.application, v.idempotencyKey)
      ensures txRows == if ok then old(txRows)[v.id := v] else old(txRows)
    {
      ok := v.id !in txRows && forall id :: id in txRows ==> !HasKey(txRows[id], v.tenant, v.application, v.idempotencyKey);
      if ok {
        txRows := txRows[v.id := v];
      }
    }

    /** The compare-and-set update; no row affected means a stale version. */
    method Update(v: Metadata, expected: int) returns (affected: nat)
      modifies `txRows
      ensures affected == 1 <==> (v.id in old(txRows) && old(txRows)[v.id].tenant == v.tenant
                                  && old(txRows)[v.id].application == v.application && old(txRows)[v.id].version == expected)
      ensures affected <= 1
      ensures txRows == if affected == 1 then old(txRows)[v.id := DbUpdate(old(txRows)[v.id], v)] else old(txRows)
    {
      affected := 0;
      if v.id in txRows && txRows[v.id].tenant == v.tenant && txRows[v.id].application == v.application
         && txRows[v.id].version == expected {
        txRows := txRows[v.id := DbUpdate(txRows[v.id], v)];
        affected := 1;
      }
    }

    method AddOutbox(e: Event)
      modifies `txOutbox
      ensures txOutbox == old(txOutbox) + [e]
    {
      txOutbox := txOutbox + [e];
    }

    method Rollback()
      modifies `txRows, `txOutbox
    {
      txRows, txOutbox := rows, outbox;
    }

    /** A commit takes effect whole or not at all, whatever it reports. */
    method Commit(outcome: TxOutcome) returns (ok: bool)
      modifies `rows, `outbox
      ensures ok <==> outcome == Committed
      ensures rows == if outcome == RolledBack then old(rows) else txRows
      ensures outbox == if outcome == RolledBack then old(outbox) else txOutbox
    {
      if outcome != RolledBack {
        rows, outbox := txRows, txOutbox;
      }
      ok := outcome == Committed;
    }

    /** Transactor.Within around Insert and addStatusEvent: row and event together, or neither. */
    method WithinInsert(v: Metadata, f: TxFaults) returns (r: TxResult)
      modifies this
      ensures var can := v.id !in old(rows) && !KeyTaken(old(rows), v.tenant, v.application, v.idempotencyKey);
              && (rows != old(rows) <==> can && f.begin && f.write && f.event && f.commit != RolledBack)
              && (r == TxOk <==> can && f.begin && f.write && f.event && f.commit == Committed)
      ensures var can := v.id !in old(rows) && !KeyTaken(old(rows), v.tenant, v.application, v.idempotencyKey);
              var applied := can && Effect(f, can) != RolledBack;
              && rows == (if applied then old(rows)[v.id := v] else old(rows))
              && outbox == (if applied then old(outbox) + [Project(v)] else old(outbox))
              && r == if can && Effect(f, can) == Committed then TxOk else TxError
    {
      if !f.begin {
        return TxError;
      }
      Begin();
      var ok := false;
      if f.write {
        ok := Insert(v);
      }
      if !ok || !f.event {
        Rollback();
        return TxError;
      }
      AddOutbox(Project(v));
      ok := Commit(f.commit);
      r := if ok then TxOk else TxError;
    }

    /** Transactor.Within around Update and addStatusEvent, the event built from the local copy
        with its version moved on. */
    method WithinUpdate(v: Metadata, expected: int, f: TxFaults) returns (r: TxResult)
      modifies this
      ensures var can := v.id in old(rows) && old(rows)[v.id].tenant == v.tenant
                         && old(rows)[v.id].application == v.application && old(rows)[v.id].version == expected;
              && (outbox != old(outbox) <==> can && f.begin && f.write && f.event && f.commit != RolledBack)
              && (r == TxOk <==> can && f.begin && f.write && f.event && f.commit == Committed)
              && (r == TxStale <==> !can && f.begin && f.write)
      ensures var can := v.id in old(rows) && old(rows)[v.id].tenant == v.tenant
                         && old(rows)[v.id].application == v.application && old(rows)[v.id].version == expected;
              var tx := Effect(f, can);
              var applied := can && tx != RolledBack;
              && rows == (if applied then old(rows)[v.id := DbUpdate(old(rows)[v.id], v)] else old(rows))
              && outbox == (if applied then old(outbox) + [Project(v.(version := expected + 1))] else old(outbox))
              && r == if tx == RolledBack then TxError else if !can then TxStale else if tx == Committed then TxOk else TxError
    {
      if !f.begin {
        return TxError;
      }
      Begin();
      if !f.write {
        Rollback();
        return TxError;
      }
      var affected := Update(v, expected);
      if affected == 0 {
        Rollback();
        return TxStale;
      }
      if !f.event {
        Rollback();
        return TxError;
      }
      AddOutbox(Project(v.(version := expected + 1)));
      var ok := Commit(f.commit);
      r := if ok then TxOk else TxError;
    }

    /** SELECT ... ORDER BY created_at DESC, id DESC LIMIT ? OFFSET ?, and SELECT COUNT(*). */
    method List(tenant: string, application: string, match_: Metadata -> bool, limit: nat, offset: nat)
      returns (files: seq<Metadata>, total: nat)
      requires WellKeyed(rows)
      ensures files == Slice(Matching(rows, tenant, application, match_), offset, limit)
      ensures total == |Matching(rows, tenant, application, match_)|
    {
      NewerOrders(Selected(rows, tenant, application, match_));
      var q := Sort(Newer, Selected(rows, tenant, application, match_));
      files, total := Slice(q, offset, limit), |q|;
    }

    /** SELECT ... WHERE status='pending_upload' AND upload_expires_at<=? ORDER BY upload_expires_at, id LIMIT ? */
    method ListExpiredUploads(before: int, limit: nat) returns (files: seq<Metadata>)
      requires WellKeyed(rows)
      ensures files == Batch(rows, before, limit)
      ensures forall v :: v in files ==>
        && v.id in rows && rows[v.id] == v
        && v.status == PendingUpload && v.expiresAt.Some? && v.expiresAt.value <= before
      ensures |files| < limit ==> forall id :: (id in rows && rows[id].status == PendingUpload && rows[id].expiresAt.Some?
                                               && rows[id].expiresAt.value <= before) ==> rows[id] in files
    {
      BatchHolds(rows, before, limit);
      WholeQueue(rows, before, limit);
      SoonerOrders(Due(rows, before));
      var q := Sort(Sooner, Due(rows, before));
      files := Slice(q, 0, limit);
    }
  }

  /** Selection sort of a result set. */
  method Sort(less: (Metadata, Metadata) -> bool, s: set<Metadata>) returns (q: seq<Metadata>)
    requires Orders(less, s)
    ensures q == Ordered(less, s)
  {
    var left := s;
    q := [];
    while left != {}
      invariant left <= s && Sorted(less, q)
      invariant forall x :: x in q <==> x in s && x !in left
      invariant forall x, y :: x in q && y in left ==> less(x, y)
      decreases |left|
    {
      LeastExists(less, left);
      var x :| x in left && forall y :: y in left && y != x ==> less(x, y);
      q := q + [x];
      left := left - {x};
    }
    OrderedIsSorted(less, s);
    SortedIsUnique(less, q, Ordered(less, s), s);
  }

  class ObjectStore {
    var objects: map<string, ObjectInfo>
    var sessions: map<string, Session>

    constructor ()
      ensures objects == map[] && sessions == map[]
    {
      objects, sessions := map[], map[];
    }

    method Stat(key: string, reachable: bool) returns (info: Option<ObjectInfo>)
      ensures info == if reachable && key in objects then Some(objects[key]) else None
    {
      if reachable && key in objects {
        return Some(objects[key]);
      }
      info := None;
    }

    method Remove(key: string, outcome: Outcome) returns (ok: bool)
      modifies `objects
      ensures ok <==> outcome == Done
      ensures objects == if outcome == NotDone then old(objects) else old(objects) - {key}
    {
      if outcome != NotDone {
        objects := objects - {key};
      }
      ok := outcome == Done;
    }

    /** `uploadId` is the fresh id storage picks. */
    method InitiateMultipart(key: string, checksum: string, outcome: Outcome, uploadId: string) returns (ok: bool)
      requires uploadId !in sessions
      modifies `sessions
      ensures ok <==> outcome == Done
      ensures sessions == if outcome == NotDone then old(sessions)
                          else old(sessions)[uploadId := Session(key, checksum, Open)]
    {
      if outcome != NotDone {
        sessions := sessions[uploadId := Session(key, checksum, Open)];
      }
      ok := outcome == Done;
    }

    method AbortMultipart(uploadId: string, outcome: Outcome) returns (ok: bool)
      modifies `sessions
      ensures ok <==> outcome == Done
      ensures sessions == if outcome != NotDone && uploadId in old(sessions) && old(sessions)[uploadId].state == Open
                          then old(sessions)[uploadId := old(sessions)[uploadId].(state := Aborted)] else old(sessions)
    {
      if outcome != NotDone && uploadId in sessions && sessions[uploadId].state == Open {
        sessions := sessions[uploadId := sessions[uploadId].(state := Aborted)];
      }
      ok := outcome == Done;
    }

    /** Copies the list, cleaning every tag once more, and closes the session over it. */
    method CompleteMultipart(key: string, uploadId: string, parts: seq<Part>, outcome: Outcome, size: int, keepsChecksum: bool)
      returns (ok: bool, wire: seq<Part>)
      modifies this
      ensures wire == CleanAll(parts)
      ensures var effective := outcome != NotDone && uploadId in old(sessions) && old(sessions)[uploadId].state == Open;
              && (ok <==> effective && outcome == Done)
              && sessions == (if effective then old(sessions)[uploadId := old(sessions)[uploadId].(state := Completed)]
                              else old(sessions))
              && objects == (if effective then
                               old(objects)[key := ObjectInfo(size, if keepsChecksum then old(sessions)[uploadId].checksum else "")]
                             else old(objects))
    {
      wire := [];
      for i := 0 to |parts|
        invariant wire == CleanAll(parts[..i])
      {
        wire := wire + [Part(parts[i].number, CleanTag(parts[i].etag))];
        assert parts[..i + 1] == parts[..i] + [parts[i]];
      }
      assert parts[..|parts|] == parts;
      ok := false;
      if outcome != NotDone && uploadId in sessions && sessions[uploadId].state == Open {
        objects := objects[key := ObjectInfo(size, if keepsChecksum then sessions[uploadId].checksum else "")];
        sessions := sessions[uploadId := sessions[uploadId].(state := Completed)];
        ok := outcome == Done;
      }
    }
  }
}
