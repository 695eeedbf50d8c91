/** Stored multipart uploads: their part arithmetic, and what is sent when one is completed. */
module Uploads {
  import opened Basics
  import opened Parts
  import opened Completion
  import opened Model
  import opened Protocol
  import opened Invariants
  import opened History

  ghost predicate TiledByParts(v: Metadata) {
    && LegalPartSize(v.partSize) && 1 <= v.partCount <= MAX_PARTS
    && IsCeiling(v.partCount, v.size, v.partSize)
  }

  lemma AcceptedCountTiles(size: Int64, partSize: Int64)
    requires LegalPartSize(partSize) && CountAccepted(size, partSize)
    ensures var n := ComputedCount(size, partSize);
            1 <= n <= MAX_PARTS && IsCeiling(n, size, partSize) && Wrap32(n) == n
  {
    hide ComputedCount;
    var n := (size - 1) / partSize + 1;
    QuotientBounds(size - 1, partSize);
    CountTestIsExact(size, partSize, n);
  }

  lemma DraftIsTiled(call: Call, v: Metadata)
    requires Drafted(call, v) && v.mode == Multipart
    ensures TiledByParts(v)
  {
    hide ValidateUpload;
    hide ComputedCount;
    var d := Draft(call, Granted, v.id, v.createdAt).value;
    assert d == v.(uploadId := "");
    assert call.req.InitiateMultipart?;
    AcceptedCountTiles(call.req.upload.size, EffectivePartSize(call.req.partSize));
    DraftSize(call, v.id, v.createdAt);
  }

  lemma DraftSize(call: Call, id: string, now: int)
    requires call.req.InitiateMultipart? && Draft(call, Granted, id, now).Ok?
    ensures Draft(call, Granted, id, now).value.size == call.req.upload.size
  {
    hide ComputedCount;
    hide VerifyApplication;
  }

  /** Every multipart row the table ever held declares the true number of parts of its size. */
  lemma StoredPartCountIsTrue(w: World, v: Metadata)
    requires Reachable(w) && Snapshot(w, v) && v.mode == Multipart
    ensures TiledByParts(v)
  {
    hide Inv;
    hide Drafted;
    hide Derived;
    hide StatusOk;
    hide TiledByParts;
    ReachableInv(w);
    InvTables(w);
    var h := w.history[v.id];
    assert HistoryOk(v.id, h);
    assert Facts(h[v.version - 1].row) == h[0].row;
    DraftIsTiled(h[0].call, h[0].row);
    TiledByFacts(v, h[0].row);
  }

  lemma TiledByFacts(v: Metadata, first: Metadata)
    requires Facts(v) == first && (first.mode == Multipart ==> TiledByParts(first))
    ensures v.mode == Multipart ==> TiledByParts(v)
  {
    assert Facts(v).mode == v.mode && Facts(v).size == v.size && Facts(v).partSize == v.partSize
           && Facts(v).partCount == v.partCount;
  }

  /** Whenever a session is about to be completed, in whatever interleaving, the list the call
      sends is parts 1..partCount in order with the caller's cleaned tags, and these parts tile
      the declared size. */
  lemma CompletionCoversTheFile(w: World, op: nat)
    requires Reachable(w) && op in w.ops && w.ops[op].pc.ToFinish?
    ensures var v := w.ops[op].pc.v;
            && w.ops[op].call.req.CompleteMultipart?
            && |w.ops[op].call.req.parts| == v.partCount
            && Assembled(CompletionList(w.ops[op].call.req.parts), w.ops[op].call.req.parts, v.partCount)
            && TiledByParts(v)
  {
    ReachableInv(w);
    assert OpOk(w, w.ops[op]);
    hide Inv;
    hide Acceptable;
    hide Assembled;
    StoredPartCountIsTrue(w, w.ops[op].pc.v);
    AcceptedListIsAssembled(w.ops[op].call.req.parts, w.ops[op].pc.v.partCount);
  }
}
