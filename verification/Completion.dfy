/** Validation and ordering of the part list of a multipart completion. */
module Completion {
  import opened Basics
  import opened Text
  import opened Parts

  /** A part as the caller or, once its tag is cleaned, as the storage client sees it. */
  datatype Part = Part(number: int, etag: string)

  function CleanTag(etag: string): string {
    Trim(TrimSpace(etag), IsQuote)
  }

  function CleanPart(p: Part): Part {
    Part(p.number, CleanTag(p.etag))
  }

  predicate LegalPart(p: Part, partCount: int) {
    1 <= p.number <= partCount && CleanTag(p.etag) != ""
  }

  predicate DistinctNumbers(parts: seq<Part>) {
    forall i, j :: 0 <= i < j < |parts| ==> parts[i].number != parts[j].number
  }

  /** What the validation loop accepts. */
  predicate Acceptable(parts: seq<Part>, partCount: int) {
    && (forall p :: p in parts ==> LegalPart(p, partCount))
    && DistinctNumbers(parts)
  }

  /** `list` names parts 1..partCount in order, each with the cleaned tag the caller gave for it. */
  ghost predicate Assembled(list: seq<Part>, parts: seq<Part>, partCount: int) {
    && |list| == partCount
    && forall i :: 0 <= i < partCount ==>
         list[i].number == i + 1 && exists p :: p in parts && list[i] == CleanPart(p)
  }

  ghost function Numbers(parts: seq<Part>): set<int> {
    set p | p in parts :: p.number
  }

  function InsertByNumber(p: Part, sorted: seq<Part>): seq<Part> {
    if sorted == [] || p.number <= sorted[0].number then [p] + sorted
    else [sorted[0]] + InsertByNumber(p, sorted[1..])
  }

  /** The effect of sort.Slice by part number. */
  function SortByNumber(parts: seq<Part>): seq<Part> {
    if parts == [] then [] else InsertByNumber(parts[0], SortByNumber(parts[1..]))
  }

  predicate Ascending(parts: seq<Part>) {
    forall i, j :: 0 <= i < j < |parts| ==> parts[i].number < parts[j].number
  }

  lemma {:induction false} InsertKeepsAscending(p: Part, sorted: seq<Part>)
    requires Ascending(sorted) && forall q :: q in sorted ==> q.number != p.number
    ensures var r := InsertByNumber(p, sorted);
            && Ascending(r) && |r| == |sorted| + 1
            && forall q :: q in r <==> q == p || q in sorted
  {
    if sorted != [] && p.number > sorted[0].number {
      var rest := InsertByNumber(p, sorted[1..]);
      InsertKeepsAscending(p, sorted[1..]);
      assert sorted == [sorted[0]] + sorted[1..];
      forall j | 0 <= j < |rest| ensures sorted[0].number < rest[j].number {
        assert rest[j] in rest;
      }
    }
  }

  lemma {:induction false} SortAscends(parts: seq<Part>)
    requires DistinctNumbers(parts)
    ensures var r := SortByNumber(parts);
            Ascending(r) && |r| == |parts| && forall q :: q in r <==> q in parts
  {
    if parts != [] {
      SortAscends(parts[1..]);
      assert parts == [parts[0]] + parts[1..];
      InsertKeepsAscending(parts[0], SortByNumber(parts[1..]));
    }
  }

  /** Strictly ascending numbers drawn from 1..n: at most n of them, and when there are
      exactly n, entry i is number i + 1. */
  lemma {:induction false} Pigeonhole(list: seq<Part>, n: int)
    requires Ascending(list) && forall p :: p in list ==> 1 <= p.number <= n
    ensures |list| <= n || list == []
    ensures |list| == n ==> forall i :: 0 <= i < n ==> list[i].number == i + 1
  {
    forall i | 0 <= i < |list| ensures i + 1 <= list[i].number <= n - (|list| - 1 - i) {
      Spread(list, n, i);
    }
    if list != [] {
      assert list[0] in list;
    }
  }

  lemma {:induction false} Spread(list: seq<Part>, n: int, i: int)
    requires Ascending(list) && forall p :: p in list ==> 1 <= p.number <= n
    requires 0 <= i < |list|
    ensures i + 1 <= list[i].number <= n - (|list| - 1 - i)
  {
    SpreadBelow(list, n, i);
    SpreadAbove(list, n, i);
  }

  lemma {:induction false} SpreadBelow(list: seq<Part>, n: int, i: int)
    requires Ascending(list) && forall p :: p in list ==> 1 <= p.number <= n
    requires 0 <= i < |list|
    ensures i + 1 <= list[i].number
  {
    assert list[i] in list;
    if i > 0 {
      SpreadBelow(list, n, i - 1);
    }
  }

  lemma {:induction false} SpreadAbove(list: seq<Part>, n: int, i: int)
    requires Ascending(list) && forall p :: p in list ==> 1 <= p.number <= n
    requires 0 <= i < |list|
    ensures list[i].number <= n - (|list| - 1 - i)
    decreases |list| - i
  {
    assert list[i] in list;
    if i < |list| - 1 {
      SpreadAbove(list, n, i + 1);
    }
  }

  function CleanAll(parts: seq<Part>): (r: seq<Part>)
    ensures |r| == |parts| && forall i :: 0 <= i < |parts| ==> r[i] == CleanPart(parts[i])
  {
    seq(|parts|, i requires 0 <= i < |parts| => CleanPart(parts[i]))
  }

  /** The list a completion hands to storage. */
  function CompletionList(parts: seq<Part>): seq<Part> {
    SortByNumber(CleanAll(parts))
  }

  /** The length test compares a 32-bit truncation, yet together with the loop it admits only
      lists of the right length; such a list is a permutation of 1..partCount and the sorted
      list is the assembled one. */
  lemma AcceptedListIsAssembled(parts: seq<Part>, partCount: int)
    requires 0 <= partCount <= 0x7FFF_FFFF && Wrap32(|parts|) == partCount
    requires Acceptable(parts, partCount)
    ensures |parts| == partCount
    ensures Assembled(CompletionList(parts), parts, partCount)
    ensures forall n :: 1 <= n <= partCount ==> n in Numbers(parts)
  {
    var list := CompletionList(parts);
    ListComesFromCaller(parts);
    forall p | p in list ensures 1 <= p.number <= partCount {
      var q :| q in parts && p == CleanPart(q);
    }
    Pigeonhole(list, partCount);
    forall i | 0 <= i < partCount ensures exists p :: p in parts && list[i] == CleanPart(p) {
      assert list[i] in list;
    }
    forall n | 1 <= n <= partCount ensures n in Numbers(parts) {
      assert list[n - 1] in list;
      var q :| q in parts && list[n - 1] == CleanPart(q);
    }
  }

  lemma ListComesFromCaller(parts: seq<Part>)
    requires DistinctNumbers(parts)
    ensures var list := CompletionList(parts);
            && Ascending(list) && |list| == |parts|
            && forall p :: p in list ==> exists q :: q in parts && p == CleanPart(q)
  {
    var cleaned := CleanAll(parts);
    SortAscends(cleaned);
    forall p | p in cleaned ensures exists q :: q in parts && p == CleanPart(q) {
      var i :| 0 <= i < |cleaned| && cleaned[i] == p;
      assert parts[i] in parts && p == CleanPart(parts[i]);
    }
  }

  lemma DistinctByFirst(parts: seq<Part>)
    requires parts != []
    ensures DistinctNumbers(parts) <==> parts[0].number !in Numbers(parts[1..]) && DistinctNumbers(parts[1..])
  {
    var rest := parts[1..];
    if parts[0].number in Numbers(rest) {
      var p :| p in rest && p.number == parts[0].number;
      var i :| 0 <= i < |rest| && rest[i] == p;
      assert parts[i + 1].number == parts[0].number;
    } else {
      forall i | 0 < i < |parts| ensures parts[i].number != parts[0].number {
        assert parts[i] == rest[i - 1] && rest[i - 1] in rest;
      }
    }
    if DistinctNumbers(parts) {
      forall i, j | 0 <= i < j < |rest| ensures rest[i].number != rest[j].number {
        assert parts[i + 1].number != parts[j + 1].number;
      }
    }
  }

  lemma {:induction false} DistinctByCount(parts: seq<Part>)
    ensures |Numbers(parts)| <= |parts|
    ensures DistinctNumbers(parts) <==> |Numbers(parts)| == |parts|
  {
    if parts != [] {
      DistinctByCount(parts[1..]);
      DistinctByFirst(parts);
      NumbersByFirst(parts);
      hide DistinctNumbers;
      hide Numbers;
    }
  }

  lemma NumbersByFirst(parts: seq<Part>)
    requires parts != []
    ensures Numbers(parts) == Numbers(parts[1..]) + {parts[0].number}
  {
    assert parts == [parts[0]] + parts[1..];
  }

  /** Neither the verdict nor the list sent to storage depends on the order of the input. */
  lemma OrderDoesNotMatter(parts: seq<Part>, shuffled: seq<Part>, partCount: int)
    requires multiset(parts) == multiset(shuffled)
    requires 0 <= partCount <= 0x7FFF_FFFF && Wrap32(|parts|) == partCount
    ensures |parts| == |shuffled|
    ensures Acceptable(parts, partCount) <==> Acceptable(shuffled, partCount)
    ensures Acceptable(parts, partCount) ==> CompletionList(parts) == CompletionList(shuffled)
  {
    assert |parts| == |multiset(parts)| == |multiset(shuffled)| == |shuffled|;
    assert forall p :: p in parts <==> p in multiset(parts);
    assert forall p :: p in shuffled <==> p in multiset(shuffled);
    assert Numbers(parts) == Numbers(shuffled);
    DistinctByCount(parts);
    DistinctByCount(shuffled);
    if Acceptable(parts, partCount) {
      AcceptedListIsAssembled(parts, partCount);
      AcceptedListIsAssembled(shuffled, partCount);
      AssembledIsUnique(CompletionList(parts), CompletionList(shuffled), parts, shuffled, partCount);
    }
  }

  lemma AssembledIsUnique(a: seq<Part>, b: seq<Part>, parts: seq<Part>, shuffled: seq<Part>, partCount: int)
    requires Assembled(a, parts, partCount) && Assembled(b, shuffled, partCount)
    requires DistinctNumbers(parts) && forall p :: p in shuffled ==> p in parts
    ensures a == b
  {
    forall i | 0 <= i < partCount ensures a[i] == b[i] {
      var p :| p in parts && a[i] == CleanPart(p);
      var q :| q in shuffled && b[i] == CleanPart(q);
      assert p.number == q.number == i + 1;
    }
  }

  /** A list the validation accepts: numbers in range, none twice, no tag empty once cleaned. */
  ghost predicate GoodParts(parts: seq<Part>, count: int) {
    && (forall i :: 0 <= i < |parts| ==> 1 <= parts[i].number <= count && CleanTag(parts[i].etag) != "")
    && (forall i, j :: 0 <= i < j < |parts| ==> parts[i].number != parts[j].number)
  }

  lemma GoodPartsAreAcceptable(parts: seq<Part>, count: int)
    ensures GoodParts(parts, count) <==> Acceptable(parts, count)
  {
    if Acceptable(parts, count) {
      forall i | 0 <= i < |parts| ensures 1 <= parts[i].number <= count && CleanTag(parts[i].etag) != "" {
        assert parts[i] in parts;
      }
    }
  }

  lemma BadPart(parts: seq<Part>, partCount: int, i: int)
    requires 0 <= i < |parts| && !LegalPart(parts[i], partCount)
    ensures !Acceptable(parts, partCount)
  {
    assert parts[i] in parts;
  }

  lemma RepeatedPart(parts: seq<Part>, partCount: int, i: int)
    requires 0 <= i < |parts| && parts[i].number in Numbers(parts[..i])
    ensures !Acceptable(parts, partCount)
  {
    var p :| p in parts[..i] && p.number == parts[i].number;
    var j :| 0 <= j < i && parts[j] == p;
    assert !DistinctNumbers(parts);
  }

  lemma OneMorePart(parts: seq<Part>, partCount: int, i: int)
    requires 0 <= i < |parts| && Acceptable(parts[..i], partCount)
    requires LegalPart(parts[i], partCount) && parts[i].number !in Numbers(parts[..i])
    ensures Acceptable(parts[..i + 1], partCount)
    ensures Numbers(parts[..i + 1]) == Numbers(parts[..i]) + {parts[i].number}
    ensures CleanAll(parts[..i + 1]) == CleanAll(parts[..i]) + [CleanPart(parts[i])]
  {
    hide LegalPart;
    hide CleanPart;
    assert parts[..i + 1] == parts[..i] + [parts[i]];
    forall j | 0 <= j < i ensures parts[j].number != parts[i].number {
      assert parts[j] in parts[..i];
    }
  }

  /** The validation loop of CompleteMultipartUpload followed by the sort. */
  method ValidateParts(parts: seq<Part>, partCount: int) returns (r: Result<seq<Part>>)
    ensures r.Ok? <==> Acceptable(parts, partCount)
    ensures r.Ok? <==> GoodParts(parts, partCount)
    ensures r.Ok? ==> r.value == CompletionList(parts)
    ensures r.Err? ==> r.error == Invalid
  {
    GoodPartsAreAcceptable(parts, partCount);
    hide GoodParts;
    hide CleanTag;
    NoPartsYet(partCount);
    hide Acceptable;
    hide Numbers;
    hide CleanAll;
    var storageParts: seq<Part> := [];
    var seen: set<int> := {};
    for i := 0 to |parts|
      invariant storageParts == CleanAll(parts[..i])
      invariant seen == Numbers(parts[..i])
      invariant Acceptable(parts[..i], partCount)
    {
      var etag := CleanTag(parts[i].etag);
      if parts[i].number < 1 || parts[i].number > partCount || etag == "" {
        BadPart(parts, partCount, i);
        return Err(Invalid);
      }
      if parts[i].number in seen {
        RepeatedPart(parts, partCount, i);
        return Err(Invalid);
      }
      OneMorePart(parts, partCount, i);
      seen := seen + {parts[i].number};
      storageParts := storageParts + [Part(parts[i].number, etag)];
    }
    assert parts[..|parts|] == parts;
    r := Ok(SortByNumber(storageParts));
  }

  lemma NoPartsYet(partCount: int)
    ensures CleanAll([]) == [] && Numbers([]) == {} && Acceptable([], partCount)
  {
  }

  lemma {:induction false} TrimShortens(s: string, cut: char -> bool)
    ensures |Trim(s, cut)| <= |s|
  {
    TrimRightEnds(TrimLeft(s, cut), cut);
    TrimLeftShortens(s, cut);
  }

  lemma {:induction false} TrimLeftShortens(s: string, cut: char -> bool)
    ensures |TrimLeft(s, cut)| <= |s|
  {
    if s != "" && cut(s[0]) {
      TrimLeftShortens(s[1..], cut);
    }
  }

  /** A tag comes out bare whether it was sent bare or quoted, white space around it or not. */
  lemma TagIsUnquoted(before: string, tag: string, after: string)
    requires tag != "" && Trimmed(tag, IsQuote) && Trimmed(tag, IsSpace)
    requires (forall c :: c in before ==> IsSpace(c)) && (forall c :: c in after ==> IsSpace(c))
    ensures CleanTag(before + tag + after) == tag
    ensures CleanTag(before + "\"" + tag + "\"" + after) == tag
  {
    Surrounded(before, tag, after, IsSpace);
    var quoted := "\"" + tag + "\"";
    Surrounded("\"", tag, "\"", IsQuote);
    Surrounded(before, quoted, after, IsSpace);
    assert before + "\"" + tag + "\"" + after == before + quoted + after;
    TrimNormalizes(tag, IsQuote);
  }

  lemma Surrounded(before: string, s: string, after: string, cut: char -> bool)
    requires s != "" && Trimmed(s, cut)
    requires (forall c :: c in before ==> cut(c)) && (forall c :: c in after ==> cut(c))
    ensures Trim(before + s + after, cut) == s
  {
    var all := before + s + after;
    TrimCutsEnds(all, cut, |before|, |before| + |s|);
    assert all[|before|..|before| + |s|] == s;
  }

  /** The storage client cleans every tag once more. What goes over the wire is the validated
      tag if and only if the validated tag does not begin or end with white space. */
  lemma WireTagIsValidatedTag(etag: string)
    ensures CleanTag(CleanTag(etag)) == CleanTag(etag) <==> Trimmed(CleanTag(etag), IsSpace)
  {
    var tag := CleanTag(etag);
    TrimNormalizes(TrimSpace(etag), IsQuote);
    TrimNormalizes(tag, IsSpace);
    TrimNormalizes(tag, IsQuote);
    TrimShortens(TrimSpace(tag), IsQuote);
    if !Trimmed(tag, IsSpace) {
      TrimLeftCut(tag, IsSpace);
    }
  }

  lemma {:induction false} TrimLeftCut(s: string, cut: char -> bool)
    requires !Trimmed(s, cut)
    ensures |Trim(s, cut)| < |s|
  {
    TrimRightEnds(TrimLeft(s, cut), cut);
    if cut(s[0]) {
      TrimLeftShortens(s[1..], cut);
    } else {
      TrimRightEnds(s[..|s| - 1], cut);
    }
  }

  /** A tag made of a quoted blank passes the emptiness test and reaches the wire empty. */
  lemma QuotedBlankReachesTheWireEmpty()
    ensures LegalPart(Part(1, "\" \""), 1)
    ensures CleanTag(CleanTag("\" \"")) == ""
  {
    var raw := "\" \"";
    assert TrimLeft(raw, IsQuote) == TrimLeft(raw[1..], IsQuote) == " \"";
    assert (" \"")[..1] == " ";
    assert TrimRight(" \"", IsQuote) == TrimRight(" ", IsQuote) == " ";
    assert CleanTag(raw) == " ";
    assert (" ")[1..] == "";
    assert TrimLeft(" ", IsSpace) == TrimLeft("", IsSpace) == "";
  }
}
