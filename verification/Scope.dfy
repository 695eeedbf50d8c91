/** Tenants: whose rows a call can see, change, and depend on. */
module Scope {
  import opened Basics
  import opened Text
  import opened Parts
  import opened Completion
  import opened Model
  import opened Protocol
  import opened Invariants
  import opened History
  import opened Listing

  /** A user's call may only deal with rows of the user's own tenant. */
  predicate Owns(call: Call, v: Metadata) {
    call.req.Cleanup? || (call.caller.Some? && (call.caller.value.isUser ==> v.tenant == call.caller.value.tenant))
  }

  /** The row a call carries, or has answered with. */
  function Carried(pc: Pc): Option<Metadata> {
    match pc
    case ToOpen(v) => Some(v)
    case ToInsert(v) => Some(v)
    case ToUndo(v) => Some(v)
    case ToFinish(v) => Some(v)
    case ToStat(v) => Some(v)
    case ToAbort(v) => Some(v)
    case ToRemove(v) => Some(v)
    case ToUpdate(_, v, _, _) => Some(v)
    case ToSign(v) => Some(v)
    case Returned(Row(v)) => Some(v)
    case Returned(Url(v)) => Some(v)
    case _ => None
  }

  predicate CarriesOwn(o: Op) {
    Carried(o.pc).Some? ==> Owns(o.call, Carried(o.pc).value)
  }

  ghost predicate OwnTenantOnly(w: World) {
    && (forall op :: op in w.ops ==> CarriesOwn(w.ops[op]))
    && (forall id, k :: id in w.history && 0 <= k < |w.history[id]| ==> Owns(w.history[id][k].call, w.history[id][k].row))
  }

  lemma DraftScope(call: Call, grant: Grant, id: string, now: int)
    requires call.req.InitiateSingle? || call.req.InitiateMultipart?
    requires Draft(call, grant, id, now).Ok?
    ensures var d := Draft(call, grant, id, now).value;
            TrimSpace(d.tenant) == d.tenant && TrimSpace(d.application) == d.application && Owns(call, d)
  {
    hide CountAccepted;
    hide ComputedCount;
    hide VerifyApplication;
    hide ValidChecksum;
    TrimNormalizes(call.req.upload.tenant, IsSpace);
    TrimNormalizes(TrimSpace(call.req.upload.tenant), IsSpace);
    TrimNormalizes(call.req.upload.application, IsSpace);
    TrimNormalizes(TrimSpace(call.req.upload.application), IsSpace);
  }

  /** Stored tenant and application ids are in trimmed form. */
  lemma StoredScopeIsTrimmed(w: World, id: string)
    requires TablesOk(w) && id in w.rows
    ensures TrimSpace(w.rows[id].tenant) == w.rows[id].tenant
    ensures TrimSpace(w.rows[id].application) == w.rows[id].application
  {
    hide Facts;
    hide Derived;
    hide StatusOk;
    hide Draft;
    RowIsSnapshot(w, id);
    var h := w.history[id];
    assert HistoryOk(id, h);
    assert Facts(h[|h| - 1].row) == h[0].row == Facts(h[0].row);
    SameIdByFacts(h[|h| - 1].row, h[0].row);
    DraftScope(h[0].call, Granted, h[0].row.id, h[0].row.createdAt);
    assert h[0].row.(uploadId := "").tenant == h[0].row.tenant;
  }

  /** The tenant test compares with the trimmed argument, the lookup uses the raw one; since
      stored ids are trimmed, a row that is found belongs to the caller's tenant. */
  lemma FoundRowIsOwn(w: World, call: Call, grant: Grant)
    requires TablesOk(w) && !call.req.InitiateSingle? && !call.req.InitiateMultipart? && !call.req.Cleanup?
    requires Admission(call, grant).None? && Find(w.rows, call.req.target).Some?
    ensures Owns(call, Find(w.rows, call.req.target).value)
  {
    hide TablesOk;
    StoredScopeIsTrimmed(w, call.req.target.id);
  }

  lemma AfterGetCarries(call: Call, v: Metadata, now: int)
    requires Completing(call) || call.req.Abort? || call.req.Report? || call.req.Delete? || call.req.Download?
             || call.req.AuthorizePart?
    ensures var c := Carried(AfterGet(call, v, now)); c.Some? ==> c.value.tenant == v.tenant
  {
    hide Acceptable;
  }

  lemma InitiateCarriesOwn(w: World, call: Call, grant: Grant, dbOk: bool, id: string, now: int)
    requires TablesOk(w) && (call.req.InitiateSingle? || call.req.InitiateMultipart?)
    ensures CarriesOwn(Op(call, InitiateRead(w.rows, call, grant, dbOk, id, now)))
  {
    hide TablesOk;
    hide Draft;
    hide HasKey;
    hide FindByKey;
    if Draft(call, grant, id, now).Ok? {
      DraftScope(call, grant, id, now);
      var d := Draft(call, grant, id, now).value;
      if FindByKey(w.rows, d.tenant, d.application, d.idempotencyKey).Some? {
        FoundByKey(w, d.tenant, d.application, d.idempotencyKey);
        KeyTenant(FindByKey(w.rows, d.tenant, d.application, d.idempotencyKey).value, d);
      }
    }
  }

  lemma ReadCarriesOwn(w: World, o: Op, grant: Grant, dbOk: bool, id: string, now: int)
    requires TablesOk(w) && (o.pc == Start || (o.pc == Reread && o.call.req.CompleteMultipart?))
    ensures CarriesOwn(Op(o.call, AfterRead(w.rows, o, grant, dbOk, id, now)))
  {
    hide TablesOk;
    hide InitiateRead;
    hide Admission;
    hide AfterGet;
    var req := o.call.req;
    if req.InitiateSingle? || req.InitiateMultipart? {
      InitiateCarriesOwn(w, o.call, grant, dbOk, id, now);
    } else if !req.Cleanup? && Admission(o.call, grant).None? && Find(w.rows, req.target).Some? {
      FoundRowIsOwn(w, o.call, grant);
      if o.pc == Start {
        AfterGetCarries(o.call, Find(w.rows, req.target).value, now);
      }
    }
  }

  lemma KeyTenant(v: Metadata, d: Metadata)
    requires HasKey(v, d.tenant, d.application, d.idempotencyKey)
    ensures v.tenant == d.tenant
  {
  }

  lemma PlanKeepsTenant(call: Call, v: Metadata, info: Option<ObjectInfo>, now: int)
    requires Planned(call, v, info, now).Some?
    ensures Planned(call, v, info, now).value.tenant == v.tenant
  {
  }

  lemma ReleaseCarriesOwn(call: Call, v: Metadata, outcome: Outcome, now: int)
    requires Owns(call, v)
    ensures CarriesOwn(Op(call, AfterRelease(call, v, outcome, now)))
  {
    hide Planned;
    hide CasVersion;
    if Planned(call, v, None, now).Some? {
      PlanKeepsTenant(call, v, None, now);
    }
  }

  lemma StatCarriesOwn(call: Call, v: Metadata, objects: map<string, ObjectInfo>, ok: bool, now: int)
    requires Owns(call, v)
    ensures CarriesOwn(Op(call, AfterStat(call, v, objects, ok, now)))
  {
    hide Planned;
    hide CasVersion;
    if v.objectKey in objects && Planned(call, v, Some(objects[v.objectKey]), now).Some? {
      PlanKeepsTenant(call, v, Some(objects[v.objectKey]), now);
    }
  }

  lemma StepCarriesOwn(w: World, l: Label)
    requires Enabled(w, l) && !l.Begin? && !l.Read? && !l.Put? && !l.Crash? && CarriesOwn(w.ops[l.op])
    ensures l.op in Apply(w, l).ops && CarriesOwn(Apply(w, l).ops[l.op])
  {
    hide Apply;
    match l
    case Insert(op, tx) => InsertMoves(w, op, tx);
    case Update(op, tx) => UpdateMoves(w, op, tx);
    case Stat(_, _, _) => ReleaseStepCarriesOwn(w, l);
    case AbortSession(_, _, _) => ReleaseStepCarriesOwn(w, l);
    case Remove(_, _, _) => ReleaseStepCarriesOwn(w, l);
    case _ => SessionStepCarriesOwn(w, l);
  }

  lemma SessionStepCarriesOwn(w: World, l: Label)
    requires Enabled(w, l) && (l.OpenSession? || l.Undo? || l.Finish? || l.Sign?) && CarriesOwn(w.ops[l.op])
    ensures l.op in Apply(w, l).ops && CarriesOwn(Apply(w, l).ops[l.op])
  {
  }

  lemma ReleaseStepCarriesOwn(w: World, l: Label)
    requires Enabled(w, l) && (l.Stat? || l.AbortSession? || l.Remove?) && CarriesOwn(w.ops[l.op])
    ensures l.op in Apply(w, l).ops && CarriesOwn(Apply(w, l).ops[l.op])
  {
    hide AfterStat;
    hide AfterRelease;
    var o := w.ops[l.op];
    match l
    case Stat(_, ok, now) => StatCarriesOwn(o.call, o.pc.v, w.objects, ok, now);
    case AbortSession(_, outcome, now) => ReleaseCarriesOwn(o.call, o.pc.v, outcome, now);
    case Remove(_, outcome, now) => ReleaseCarriesOwn(o.call, o.pc.v, outcome, now);
  }

  lemma AppendOwn(w: World, w': World, id: string, c: Commit)
    requires OwnTenantOnly(w) && Owns(c.call, c.row)
    requires w'.history == w.history[id := Past(w, id) + [c]] || w'.history == w.history[id := [c]]
    requires forall op :: op in w'.ops ==> CarriesOwn(w'.ops[op])
    ensures OwnTenantOnly(w')
  {
  }

  lemma CommitIsOwn(w: World, l: Label)
    requires OwnTenantOnly(w) && Enabled(w, l) && (l.Insert? || l.Update?)
    requires forall op :: op in Apply(w, l).ops ==> CarriesOwn(Apply(w, l).ops[op])
    ensures OwnTenantOnly(Apply(w, l))
  {
    hide KeyTaken;
    hide Project;
    hide Owns;
    var w' := Apply(w, l);
    var v := w.ops[l.op].pc.v;
    assert Owns(w.ops[l.op].call, v) by { assert CarriesOwn(w.ops[l.op]); }
    if l.Update? && Applies(w, l.op, l.tx) {
      var h' := w'.history[v.id];
      OwnsByTenant(w.ops[l.op].call, v, h'[|h'| - 1].row);
      AppendOwn(w, w', v.id, h'[|h'| - 1]);
    } else if l.Insert? && CanInsert(w, v) && l.tx != RolledBack {
      AppendOwn(w, w', v.id, w'.history[v.id][0]);
    }
  }

  lemma OwnsByTenant(call: Call, v: Metadata, u: Metadata)
    requires Owns(call, v) && u.tenant == v.tenant
    ensures Owns(call, u)
  {
  }

  lemma StepKeepsOwnTenant(w: World, l: Label)
    requires Inv(w) && OwnTenantOnly(w) && Enabled(w, l)
    ensures OwnTenantOnly(Apply(w, l))
  {
    hide Apply;
    hide TablesOk;
    hide OutboxOk;
    hide KeysUnique;
    hide OpsOk;
    hide CarriesOwn;
    hide Owns;
    OthersUntouched(w, l);
    if l.Begin? {
      StartCarriesNothing(l.call);
    } else if l.Read? {
      ReadMoves(w, l);
      ReadCarriesOwn(w, w.ops[l.op], l.grant, l.dbOk, l.id, l.now);
    } else if l.Crash? {
      CrashForgets(w, l.op);
    } else if !l.Put? {
      StepCarriesOwn(w, l);
    }
    if l.Begin? {
      BeginAtStart(w, l.op, l.call);
    }
    if l.Insert? || l.Update? {
      CommitIsOwn(w, l);
    } else {
      TablesMoveOnlyBy(w, l);
    }
  }

  lemma StartCarriesNothing(call: Call)
    ensures CarriesOwn(Op(call, Start))
  {
  }

  lemma {:induction false} RunKeepsOwnTenant(w: World, run: seq<Label>)
    requires Inv(w) && OwnTenantOnly(w) && IsRun(w, run)
    ensures OwnTenantOnly(After(w, run))
    decreases |run|
  {
    hide Inv;
    hide OwnTenantOnly;
    hide Apply;
    hide Enabled;
    if run != [] {
      StepKeepsInv(w, run[0]);
      StepKeepsOwnTenant(w, run[0]);
      RunKeepsOwnTenant(Apply(w, run[0]), run[1..]);
    }
  }

  /** In every run, every row a user's call returns, holds or has changed belongs to the user's
      own tenant, whatever white space surrounds the tenant argument. */
  lemma UsersStayInTheirTenant(w: World)
    requires Reachable(w)
    ensures OwnTenantOnly(w)
  {
    hide Inv;
    var run :| IsRun(EMPTY, run) && After(EMPTY, run) == w;
    EmptyInv();
    RunKeepsOwnTenant(EMPTY, run);
  }

  // ---- Non-interference of reads ----

  /** The two tables hold the same rows of tenant `t`. */
  ghost predicate SameFor(a: map<string, Metadata>, b: map<string, Metadata>, t: string) {
    forall id :: (id in a && a[id].tenant == t <==> id in b && b[id].tenant == t)
      && (id in a && a[id].tenant == t ==> a[id] == b[id])
  }

  lemma SameFindByKey(w1: World, w2: World, t: string, application: string, key: string)
    requires KeysUnique(w1) && SameFor(w1.rows, w2.rows, t)
    ensures FindByKey(w1.rows, t, application, key) == FindByKey(w2.rows, t, application, key)
  {
    if KeyTaken(w1.rows, t, application, key) {
      var i :| i in w1.rows && HasKey(w1.rows[i], t, application, key);
      assert i in w2.rows && HasKey(w2.rows[i], t, application, key);
      forall j | j in w1.rows && HasKey(w1.rows[j], t, application, key) ensures j == i {
        assert SameKey(w1.rows[j], w1.rows[i]);
      }
    }
  }

  lemma SameFind(w1: World, w2: World, t: Target, tenant: string)
    requires TablesOk(w1) && TablesOk(w2) && SameFor(w1.rows, w2.rows, tenant)
    requires TrimSpace(t.tenant) == tenant
    ensures Find(w1.rows, t) == Find(w2.rows, t)
  {
    hide TablesOk;
    if t.id in w1.rows {
      StoredScopeIsTrimmed(w1, t.id);
    }
    if t.id in w2.rows {
      StoredScopeIsTrimmed(w2, t.id);
    }
  }

  /** What a user's call reads, and therefore does next, does not depend on the rows of other
      tenants. */
  lemma ReadsIgnoreOtherTenants(w1: World, w2: World, o: Op, grant: Grant, dbOk: bool, id: string, now: int)
    requires Inv(w1) && Inv(w2) && o.call.caller.Some? && o.call.caller.value.isUser && !o.call.req.Cleanup?
    requires SameFor(w1.rows, w2.rows, o.call.caller.value.tenant)
    requires o.pc == Start || (o.pc == Reread && o.call.req.CompleteMultipart?)
    ensures AfterRead(w1.rows, o, grant, dbOk, id, now) == AfterRead(w2.rows, o, grant, dbOk, id, now)
  {
    hide TablesOk;
    hide OutboxOk;
    hide KeysUnique;
    hide OpsOk;
    hide Draft;
    hide AfterGet;
    hide FindByKey;
    hide Find;
    hide SameFor;
    hide VerifyApplication;
    var req := o.call.req;
    if req.InitiateSingle? || req.InitiateMultipart? {
      if Draft(o.call, grant, id, now).Ok? {
        DraftScope(o.call, grant, id, now);
        var d := Draft(o.call, grant, id, now).value;
        SameFindByKey(w1, w2, o.call.caller.value.tenant, d.application, d.idempotencyKey);
      }
    } else if Admission(o.call, grant).None? {
      SameFind(w1, w2, req.target, o.call.caller.value.tenant);
    }
  }

  /** Nor do the pages a list call answers. */
  lemma ListingIgnoresOtherTenants(w1: World, w2: World, tenant: string, application: string, match_: Metadata -> bool,
                                   page: Int64, pageSize: Int64)
    requires WellKeyed(w1.rows) && WellKeyed(w2.rows) && SameFor(w1.rows, w2.rows, tenant)
    ensures ListPage(w1.rows, tenant, application, match_, page, pageSize)
            == ListPage(w2.rows, tenant, application, match_, page, pageSize)
  {
    SameSelection(w1.rows, w2.rows, tenant, application, match_);
  }

  lemma SameSelection(a: map<string, Metadata>, b: map<string, Metadata>, tenant: string, application: string,
                      match_: Metadata -> bool)
    requires SameFor(a, b, tenant)
    ensures Selected(a, tenant, application, match_) == Selected(b, tenant, application, match_)
  {
    forall v ensures v in Selected(a, tenant, application, match_) <==> v in Selected(b, tenant, application, match_) {
      if v in Selected(a, tenant, application, match_) {
        var id :| id in a && a[id] == v && a[id].tenant == tenant;
        assert id in b && b[id] == v;
      }
      if v in Selected(b, tenant, application, match_) {
        var id :| id in b && b[id] == v && b[id].tenant == tenant;
        assert id in a && a[id] == v;
      }
    }
  }
}
