/** The two ordered queries: pages of a tenant's files, and the uploads due for cleanup. */
module Listing {
  import opened Basics
  import opened Parts
  import opened Model
  import opened Ordering

  type Table = map<string, Metadata>

  predicate WellKeyed(rows: Table) {
    forall id :: id in rows ==> rows[id].id == id
  }

  /** ORDER BY created_at DESC, id DESC */
  predicate Newer(a: Metadata, b: Metadata) {
    a.createdAt > b.createdAt || (a.createdAt == b.createdAt && StrLess(b.id, a.id))
  }

  /** ORDER BY upload_expires_at, id */
  predicate Sooner(a: Metadata, b: Metadata) {
    var (x, y) := (Expiry(a), Expiry(b));
    x < y || (x == y && StrLess(a.id, b.id))
  }

  function Expiry(v: Metadata): int {
    if v.expiresAt.Some? then v.expiresAt.value else 0
  }

  /** WHERE tenant_id=? AND application_id=? and whatever else the filter asks for. */
  function Selected(rows: Table, tenant: string, application: string, match_: Metadata -> bool): set<Metadata> {
    set id | id in rows && rows[id].tenant == tenant && rows[id].application == application && match_(rows[id]) :: rows[id]
  }

  function Due(rows: Table, before: int): set<Metadata> {
    set id | id in rows && DueForCleanup(rows[id], before) :: rows[id]
  }

  ghost predicate DistinctIds(s: set<Metadata>) {
    forall a, b :: a in s && b in s && a.id == b.id ==> a == b
  }

  lemma NewerOrders(s: set<Metadata>)
    requires DistinctIds(s)
    ensures Orders(Newer, s)
  {
    forall a, b | a in s && b in s && a != b ensures Newer(a, b) || Newer(b, a) {
      StrLessTotal(a.id, b.id);
    }
    forall a, b, c | a in s && b in s && c in s && Newer(a, b) && Newer(b, c) ensures Newer(a, c) {
      if a.createdAt == b.createdAt == c.createdAt {
        StrLessTransitive(c.id, b.id, a.id);
      }
    }
    forall a | a in s ensures !Newer(a, a) {
      StrLessTotal(a.id, a.id);
    }
  }

  lemma SoonerOrders(s: set<Metadata>)
    requires DistinctIds(s)
    ensures Orders(Sooner, s)
  {
    forall a, b | a in s && b in s && a != b ensures Sooner(a, b) || Sooner(b, a) {
      StrLessTotal(a.id, b.id);
    }
    forall a, b, c | a in s && b in s && c in s && Sooner(a, b) && Sooner(b, c) ensures Sooner(a, c) {
      if Expiry(a) == Expiry(b) == Expiry(c) {
        StrLessTransitive(a.id, b.id, c.id);
      }
    }
    forall a | a in s ensures !Sooner(a, a) {
      StrLessTotal(a.id, a.id);
    }
  }

  /** All matching rows, newest first. */
  ghost function Matching(rows: Table, tenant: string, application: string, match_: Metadata -> bool): seq<Metadata>
    requires WellKeyed(rows)
  {
    NewerOrders(Selected(rows, tenant, application, match_));
    Ordered(Newer, Selected(rows, tenant, application, match_))
  }

  /** All uploads due, soonest first. */
  ghost function Queue(rows: Table, before: int): seq<Metadata>
    requires WellKeyed(rows)
  {
    SoonerOrders(Due(rows, before));
    Ordered(Sooner, Due(rows, before))
  }

  function Min(a: int, b: int): int {
    if a <= b then a else b
  }

  /** LIMIT n OFFSET offset */
  function Slice(q: seq<Metadata>, offset: nat, n: nat): seq<Metadata> {
    q[Min(offset, |q|)..Min(offset + n, |q|)]
  }

  function EffectivePage(page: Int64): Int64 {
    if page <= 0 then 1 else page
  }

  function EffectiveSize(pageSize: Int64): Int64 {
    if pageSize <= 0 then 20 else pageSize
  }

  const MAX_PAGE_SIZE := 100

  /** (page - 1) * pageSize in 64-bit arithmetic. */
  function Offset(page: Int64, pageSize: Int64): Int64 {
    Wrap64((page - 1) * pageSize)
  }

  datatype Page = Page(files: seq<Metadata>, total: nat, page: Int64, pageSize: Int64)

  /** What List answers: the rows of the page and the number of all matching rows. A negative
      offset, which only a wrapped product can be, is an error of the database. */
  ghost function ListPage(rows: Table, tenant: string, application: string, match_: Metadata -> bool,
                          page: Int64, pageSize: Int64): Result<Page>
    requires WellKeyed(rows)
  {
    var p, size := EffectivePage(page), EffectiveSize(pageSize);
    var q := Matching(rows, tenant, application, match_);
    if size > MAX_PAGE_SIZE then Err(Invalid)
    else if Offset(p, size) < 0 then Err(Internal)
    else Ok(Page(Slice(q, Offset(p, size), size), |q|, p, size))
  }

  /** Pages 1..k, one after the other. */
  ghost function Pages(rows: Table, tenant: string, application: string, match_: Metadata -> bool, k: nat, size: Int64)
    : seq<Metadata>
    requires WellKeyed(rows) && k <= 0x7FFF_FFFF_FFFF_FFFF
  {
    if k == 0 then []
    else
      var r := ListPage(rows, tenant, application, match_, k, size);
      Pages(rows, tenant, application, match_, k - 1, size) + (if r.Ok? then r.value.files else [])
  }

  /** As long as a page begins within the result, its offset does not wrap. */
  lemma OffsetIsExact(page: Int64, size: Int64)
    requires 1 <= page && 1 <= size <= MAX_PAGE_SIZE && (page - 1) * size <= 0x7FFF_FFFF_FFFF_FFFF
    ensures Offset(page, size) == (page - 1) * size
  {
    ScaleKeepsOrder(0, page - 1, size);
  }

  lemma SliceExtendsPrefix(q: seq<Metadata>, offset: nat, n: nat)
    requires offset <= |q|
    ensures q[..offset] + Slice(q, offset, n) == q[..Min(offset + n, |q|)]
  {
  }

  /** A page that begins within the result is answered with its slice. */
  lemma PageIsSlice(rows: Table, tenant: string, application: string, match_: Metadata -> bool, page: Int64, size: Int64)
    requires WellKeyed(rows) && 1 <= page && 1 <= size <= MAX_PAGE_SIZE
    requires (page - 1) * size <= |Matching(rows, tenant, application, match_)| <= 0x7FFF_FFFF_FFFF_FFFF
    ensures (page - 1) * size >= 0
    ensures var q := Matching(rows, tenant, application, match_);
            ListPage(rows, tenant, application, match_, page, size)
            == Ok(Page(Slice(q, (page - 1) * size, size), |q|, page, size))
  {
    hide Matching;
    hide Offset;
    hide Slice;
    ScaleKeepsOrder(0, page - 1, size);
    OffsetIsExact(page, size);
  }

  lemma {:induction false} PagesArePrefix(rows: Table, tenant: string, application: string, match_: Metadata -> bool,
                                          k: nat, size: Int64)
    requires WellKeyed(rows) && 1 <= size <= MAX_PAGE_SIZE && k <= 0x7FFF_FFFF_FFFF_FFFF
    requires |Matching(rows, tenant, application, match_)| <= 0x7FFF_FFFF_FFFF_FFFF
    requires k > 0 ==> (k - 1) * size <= |Matching(rows, tenant, application, match_)|
    ensures k * size >= 0
    ensures var q := Matching(rows, tenant, application, match_);
            Pages(rows, tenant, application, match_, k, size) == q[..Min(k * size, |q|)]
  {
    hide Matching;
    hide ListPage;
    hide Slice;
    ScaleKeepsOrder(0, k, size);
    if k > 0 {
      var q := Matching(rows, tenant, application, match_);
      ScaleKeepsOrder(k - 2, k - 1, size);
      PagesArePrefix(rows, tenant, application, match_, k - 1, size);
      PageIsSlice(rows, tenant, application, match_, k, size);
      SliceExtendsPrefix(q, (k - 1) * size, size);
      assert k * size == (k - 1) * size + size;
    }
  }

  lemma CeilingIsModest(n: int, total: nat, size: int)
    requires IsCeiling(n, total, size) && size >= 1
    ensures 0 <= n <= total
  {
    if n > total {
      ScaleKeepsOrder(1, size, n - 1);
    }
    if n < 0 {
      ScaleKeepsOrder(n, -1, size);
    }
  }

  /** Pagination is a partition: for a fixed table, any filter and any accepted page size, every
      page 1..n with n = ceil(total / size) is answered, and together, in order, they are
      exactly the matching rows, strictly ordered, no row twice; total is their number. */
  lemma PagesPartition(rows: Table, tenant: string, application: string, match_: Metadata -> bool, n: nat, size: Int64)
    requires WellKeyed(rows) && 1 <= size <= MAX_PAGE_SIZE
    requires |Matching(rows, tenant, application, match_)| <= 0x7FFF_FFFF_FFFF_FFFF
    requires IsCeiling(n, |Matching(rows, tenant, application, match_)|, size)
    ensures n <= 0x7FFF_FFFF_FFFF_FFFF
    ensures var all := Pages(rows, tenant, application, match_, n, size);
            && Sorted(Newer, all)
            && (forall i, j :: 0 <= i < j < |all| ==>
                  || all[i].createdAt > all[j].createdAt
                  || (all[i].createdAt == all[j].createdAt && StrLess(all[j].id, all[i].id)))
            && |all| == |Selected(rows, tenant, application, match_)|
            && (forall v :: v in all <==>
                  v.id in rows && rows[v.id] == v && v.tenant == tenant && v.application == application && match_(v))
            && forall p: Int64 :: 1 <= p <= n ==>
                 && ListPage(rows, tenant, application, match_, p, size).Ok?
                 && ListPage(rows, tenant, application, match_, p, size).value.total == |all|
  {
    hide Matching;
    hide ListPage;
    hide Selected;
    hide Sorted;
    hide Pages;
    MatchingIsSorted(rows, tenant, application, match_);
    var q := Matching(rows, tenant, application, match_);
    CeilingIsModest(n, |q|, size);
    ScaleKeepsOrder(0, n, size);
    PagesArePrefix(rows, tenant, application, match_, n, size);
    assert q[..Min(n * size, |q|)] == q;
    forall p: Int64 | 1 <= p <= n
      ensures ListPage(rows, tenant, application, match_, p, size).Ok?
      ensures ListPage(rows, tenant, application, match_, p, size).value.total == |q|
    {
      PageIsAnswered(rows, tenant, application, match_, p, n, size);
    }
  }

  lemma PageIsAnswered(rows: Table, tenant: string, application: string, match_: Metadata -> bool, p: Int64, n: nat, size: Int64)
    requires WellKeyed(rows) && 1 <= size <= MAX_PAGE_SIZE && 1 <= p <= n
    requires |Matching(rows, tenant, application, match_)| <= 0x7FFF_FFFF_FFFF_FFFF
    requires (n - 1) * size <= |Matching(rows, tenant, application, match_)|
    ensures ListPage(rows, tenant, application, match_, p, size).Ok?
    ensures ListPage(rows, tenant, application, match_, p, size).value.total == |Matching(rows, tenant, application, match_)|
  {
    hide Matching;
    hide ListPage;
    ScaleKeepsOrder(p - 1, n - 1, size);
    PageIsSlice(rows, tenant, application, match_, p, size);
  }

  lemma MatchingIsSorted(rows: Table, tenant: string, application: string, match_: Metadata -> bool)
    requires WellKeyed(rows)
    ensures var (q, s) := (Matching(rows, tenant, application, match_), Selected(rows, tenant, application, match_));
            && Sorted(Newer, q) && |q| == |s|
            && (forall i, j :: 0 <= i < j < |q| ==>
                  || q[i].createdAt > q[j].createdAt
                  || (q[i].createdAt == q[j].createdAt && StrLess(q[j].id, q[i].id)))
            && forall v :: v in q <==>
                 v.id in rows && rows[v.id] == v && v.tenant == tenant && v.application == application && match_(v)
  {
    NewerOrders(Selected(rows, tenant, application, match_));
    OrderedIsSorted(Newer, Selected(rows, tenant, application, match_));
    var q := Matching(rows, tenant, application, match_);
    forall i, j | 0 <= i < j < |q|
      ensures q[i].createdAt > q[j].createdAt || (q[i].createdAt == q[j].createdAt && StrLess(q[j].id, q[i].id))
    {
      assert Newer(q[i], q[j]);
    }
  }

  // ---- Cleanup ----

  /** The listing a cleanup run starts from. */
  ghost function Batch(rows: Table, before: int, limit: nat): seq<Metadata>
    requires WellKeyed(rows)
  {
    Slice(Queue(rows, before), 0, limit)
  }

  function ExpiredRow(v: Metadata, now: int): Metadata {
    v.(status := Expired, updatedAt := now, updatedBy := CLEANER, version := v.version + 1)
  }

  /** The table once the listed files are expired. */
  function ExpireAll(rows: Table, files: seq<Metadata>, now: int): Table {
    map id | id in rows :: if rows[id] in files then ExpiredRow(rows[id], now) else rows[id]
  }

  /** `k` cleanup runs without failures at a fixed clock. */
  ghost function Drain(rows: Table, now: int, limit: nat, k: nat): Table
    requires WellKeyed(rows)
    ensures WellKeyed(Drain(rows, now, limit, k))
  {
    if k == 0 then rows
    else
      var before := Drain(rows, now, limit, k - 1);
      ExpireAll(before, Batch(before, now, limit), now)
  }

  lemma DueAfterRun(rows: Table, now: int, limit: nat)
    requires WellKeyed(rows)
    ensures var b := Batch(rows, now, limit);
            Due(ExpireAll(rows, b, now), now) == Due(rows, now) - set v | v in b
  {
    var b := Batch(rows, now, limit);
    var rows' := ExpireAll(rows, b, now);
    hide Batch;
    forall v ensures v in Due(rows', now) <==> v in Due(rows, now) - set u | u in b {
      if v in Due(rows', now) {
        var id :| id in rows' && rows'[id] == v && DueForCleanup(rows'[id], now);
        assert rows[id] == v;
      }
      if v in Due(rows, now) - set u | u in b {
        var id :| id in rows && rows[id] == v && DueForCleanup(rows[id], now);
        assert rows'[id] == v;
      }
    }
  }

  /** The queue holds the pending uploads whose time is over, and no others. */
  lemma QueueHolds(rows: Table, before: int, v: Metadata)
    requires WellKeyed(rows)
    ensures v in Queue(rows, before) <==>
      && v.id in rows && rows[v.id] == v && v.status == PendingUpload && v.expiresAt.Some? && v.expiresAt.value <= before
  {
    SoonerOrders(Due(rows, before));
    OrderedIsSorted(Sooner, Due(rows, before));
  }

  /** Soonest first, then by id. */
  lemma QueueIsOrdered(rows: Table, before: int, i: int, j: int)
    requires WellKeyed(rows) && 0 <= i < j < |Queue(rows, before)|
    ensures var (a, b) := (Queue(rows, before)[i], Queue(rows, before)[j]);
            && a.expiresAt.Some? && b.expiresAt.Some?
            && (a.expiresAt.value < b.expiresAt.value || (a.expiresAt.value == b.expiresAt.value && StrLess(a.id, b.id)))
  {
    var q := Queue(rows, before);
    SoonerOrders(Due(rows, before));
    OrderedIsSorted(Sooner, Due(rows, before));
    QueueHolds(rows, before, q[i]);
    QueueHolds(rows, before, q[j]);
    assert Sooner(q[i], q[j]);
  }

  /** A batch is the front of the queue: all of it, or as much as the limit allows. */
  lemma BatchHolds(rows: Table, before: int, limit: nat)
    requires WellKeyed(rows)
    ensures var files := Batch(rows, before, limit);
            && files <= Queue(rows, before) && |files| == Min(limit, |Queue(rows, before)|)
            && (forall i :: 0 <= i < |files| ==>
                  && files[i].id in rows && rows[files[i].id] == files[i]
                  && files[i].status == PendingUpload && files[i].expiresAt.Some? && files[i].expiresAt.value <= before)
  {
    var files := Batch(rows, before, limit);
    forall i | 0 <= i < |files|
      ensures files[i].id in rows && rows[files[i].id] == files[i]
      ensures files[i].status == PendingUpload && files[i].expiresAt.Some? && files[i].expiresAt.value <= before
    {
      assert files[i] == Queue(rows, before)[i];
      QueueHolds(rows, before, files[i]);
    }
  }

  /** A batch that is not full is the whole queue. */
  lemma WholeQueue(rows: Table, before: int, limit: nat)
    requires WellKeyed(rows)
    ensures |Batch(rows, before, limit)| < limit ==>
              forall id :: (id in rows && rows[id].status == PendingUpload && rows[id].expiresAt.Some?
                            && rows[id].expiresAt.value <= before) ==> rows[id] in Batch(rows, before, limit)
  {
    BatchHolds(rows, before, limit);
    if |Batch(rows, before, limit)| < limit {
      assert Batch(rows, before, limit) == Queue(rows, before);
      forall id | id in rows && rows[id].status == PendingUpload && rows[id].expiresAt.Some? && rows[id].expiresAt.value <= before
        ensures rows[id] in Queue(rows, before)
      {
        QueueHolds(rows, before, rows[id]);
      }
    }
  }

  lemma QueueAfterRun(rows: Table, now: int, limit: nat)
    requires WellKeyed(rows)
    ensures Queue(ExpireAll(rows, Batch(rows, now, limit), now), now)
            == Queue(rows, now)[Min(limit, |Queue(rows, now)|)..]
  {
    DueAfterRun(rows, now, limit);
    SoonerOrders(Due(rows, now));
    OrderedIsSorted(Sooner, Due(rows, now));
    var n := Min(limit, |Queue(rows, now)|);
    assert Batch(rows, now, limit) == Queue(rows, now)[..n];
    OrderedDrop(Sooner, Due(rows, now), n, Due(ExpireAll(rows, Batch(rows, now, limit), now), now));
  }

  /** k runs with batch b clean the k * b uploads that expired first, each once and in order,
      and leave max(0, N - k * b). */
  lemma {:induction false} DrainEmptiesTheQueue(rows: Table, now: int, limit: nat, k: nat)
    requires WellKeyed(rows)
    ensures var q := Queue(rows, now);
            && Queue(Drain(rows, now, limit, k), now) == q[Min(k * limit, |q|)..]
            && |Queue(Drain(rows, now, limit, k), now)| == (if k * limit <= |q| then |q| - k * limit else 0)
  {
    hide Queue;
    hide Drain;
    if k == 0 {
      assert Drain(rows, now, limit, 0) == rows by {
        NothingDrained(rows, now, limit);
      }
    } else {
      DrainEmptiesTheQueue(rows, now, limit, k - 1);
      ScaleKeepsOrder(0, k - 1, limit);
      assert k * limit == (k - 1) * limit + limit;
      DrainOnce(rows, now, limit, k, (k - 1) * limit);
    }
  }

  lemma NothingDrained(rows: Table, now: int, limit: nat)
    requires WellKeyed(rows)
    ensures Drain(rows, now, limit, 0) == rows
  {
  }

  lemma DrainOnce(rows: Table, now: int, limit: nat, k: nat, done: nat)
    requires WellKeyed(rows) && k > 0
    requires Queue(Drain(rows, now, limit, k - 1), now) == Queue(rows, now)[Min(done, |Queue(rows, now)|)..]
    ensures Queue(Drain(rows, now, limit, k), now) == Queue(rows, now)[Min(done + limit, |Queue(rows, now)|)..]
  {
    hide Queue;
    hide Batch;
    hide ExpireAll;
    QueueAfterRun(Drain(rows, now, limit, k - 1), now, limit);
    DropMore(Queue(rows, now), done, limit);
  }

  lemma DropMore(q: seq<Metadata>, m: nat, n: nat)
    ensures var rest := q[Min(m, |q|)..];
            rest[Min(n, |rest|)..] == q[Min(m + n, |q|)..]
  {
  }

  /** The batch of run k + 1 is the next stretch of the queue. */
  lemma RunsVisitInOrder(rows: Table, now: int, limit: nat, k: nat)
    requires WellKeyed(rows)
    ensures k * limit >= 0
    ensures var q := Queue(rows, now);
            Batch(Drain(rows, now, limit, k), now, limit) == Slice(q, k * limit, limit)
  {
    hide Queue;
    hide Drain;
    ScaleKeepsOrder(0, k, limit);
    DrainEmptiesTheQueue(rows, now, limit, k);
    SliceOfTail(Queue(rows, now), k * limit, limit);
  }

  lemma SliceOfTail(q: seq<Metadata>, offset: nat, n: nat)
    ensures Slice(q[Min(offset, |q|)..], 0, n) == Slice(q, offset, n)
  {
  }
}
