/** Calls that go through: runs of one call with good answers, from any state, to their end. */
module Progress {
  import opened Basics
  import opened ObjectKeys
  import opened Model
  import opened Protocol
  import opened Invariants
  import opened History
  import opened Scenarios
  import opened Answers

  lemma AdmittedReads(w: World, call: Call, uuid: string, now: int, v: Metadata)
    requires call.req.Delete? || call.req.Complete?
    requires Reachable(w) && Gate(call.caller, call.req.target, true, Granted, true, w.rows) == Ok(v)
    ensures AfterRead(w.rows, Op(call, Start), Granted, true, uuid, now) == AfterGet(call, v, now)
    ensures call.caller.Some? && v.id in w.rows && w.rows[v.id] == v && v.version >= 1
  {
    hide Reachable;
    hide Gate;
    hide AfterGet;
    hide Admission;
    hide TablesOk;
    GateIs(call, true, Granted, true, w.rows);
    GateOpensExactlyTo(call.caller, call.req.target, Granted, true, w.rows, v);
    ReachableInv(w);
    RowIsSnapshot(w, call.req.target.id);
    RowVersion(w, v);
  }

  lemma RowVersion(w: World, v: Metadata)
    requires Snapshot(w, v)
    ensures v.version >= 1
  {
  }

  /** The write of a call that has read the row as it is. */
  lemma CommitsRow(w: World, op: nat, call: Call, base: Metadata, v: Metadata, info: Option<ObjectInfo>) returns (w': World)
    requires op in w.ops && w.ops[op] == Op(call, ToUpdate(base, v, base.version, info))
    requires base.id in w.rows && w.rows[base.id] == base && Restamps(v, base)
    ensures Reaches(w, w') && w'.objects == w.objects && w'.sessions == w.sessions
    ensures var row := Stamped(base, v.status, v.scan, v.updatedBy, v.updatedAt);
            && w'.rows == w.rows[base.id := row]
            && w'.ops == w.ops[op := Op(call, if call.req.Delete? && v.status == Deleting then ToRemove(row) else Returned(Row(row)))]
  {
    hide Reaches;
    hide DbUpdate;
    StampedUpdate(v, base);
    hide Stamped;
    hide Restamps;
    w' := Writes(w, op);
  }

  /** Removing the object of a deleting row and marking the row as deleted. */
  lemma RemovalGoesThrough(w: World, op: nat, call: Call, v: Metadata, later: int) returns (w': World)
    requires call.req.Delete? && call.req.expected >= 1 && call.caller.Some? && v.status == Deleting
    requires op in w.ops && w.ops[op] == Op(call, ToRemove(v)) && v.id in w.rows && w.rows[v.id] == v
    ensures Reaches(w, w') && w'.objects == w.objects - {v.objectKey}
    ensures var row := Stamped(v, Deleted, v.scan, call.caller.value.id, later);
            w'.rows == w.rows[v.id := row] && w'.ops == w.ops[op := Op(call, Returned(Row(row)))]
  {
    hide Reaches;
    var w1 := Removes(w, op, later);
    var u := v.(status := Deleted, updatedAt := later, updatedBy := call.caller.value.id);
    w' := CommitsRow(w1, op, call, v, u, None);
    Joins(w, w1, w');
    assert w.ops[op := w1.ops[op]][op := w'.ops[op]] == w.ops[op := w'.ops[op]];
  }

  /** A retried deletion ends: whatever state the world is in, one more admitted delete call on a
      deleting row, all answers good, removes the object and makes the row deleted. */
  lemma RetriedDeleteGoesThrough(w: World, op: nat, call: Call, uuid: string, now: int, later: int, v: Metadata)
    returns (w': World)
    requires Reachable(w) && op !in w.ops && IsUuid(uuid) && call.req.Delete? && call.req.expected >= 1
    requires Gate(call.caller, call.req.target, true, Granted, true, w.rows) == Ok(v) && v.status == Deleting
    ensures Reaches(w, w') && v.objectKey !in w'.objects
    ensures v.id in w'.rows && w'.rows[v.id].status == Deleted && w'.rows[v.id].version == v.version + 1
    ensures op in w'.ops && w'.ops[op].pc == Returned(Row(w'.rows[v.id]))
  {
    hide Reachable;
    hide Reaches;
    hide AfterRead;
    hide Gate;
    AdmittedReads(w, call, uuid, now, v);
    var w1 := Asks(w, op, call, uuid, now);
    w' := RemovalGoesThrough(w1, op, call, v, later);
    Joins(w, w1, w');
  }

  /** A first deletion at the current version goes through in one call. */
  lemma DeleteGoesThrough(w: World, op: nat, call: Call, uuid: string, now: int, later: int, v: Metadata)
    returns (w': World)
    requires Reachable(w) && op !in w.ops && IsUuid(uuid) && call.req.Delete? && call.req.expected == v.version
    requires Gate(call.caller, call.req.target, true, Granted, true, w.rows) == Ok(v)
    requires v.status != Deleting && v.status != Deleted
    ensures Reaches(w, w') && v.objectKey !in w'.objects
    ensures v.id in w'.rows && w'.rows[v.id].status == Deleted && w'.rows[v.id].version == v.version + 2
    ensures op in w'.ops && w'.ops[op].pc == Returned(Row(w'.rows[v.id]))
  {
    hide Reachable;
    hide Reaches;
    hide AfterRead;
    hide Gate;
    AdmittedReads(w, call, uuid, now, v);
    var w1 := Asks(w, op, call, uuid, now);
    var u := v.(status := Deleting, updatedAt := now, updatedBy := call.caller.value.id);
    var w2 := CommitsRow(w1, op, call, v, u, None);
    w' := RemovalGoesThrough(w2, op, call, w2.rows[v.id], later);
    Joins(w, w1, w2);
    Joins(w, w2, w');
  }
}
