/** Object keys: "<tenant>/<application>/<file id>/<file name>". */
module ObjectKeys {
  import opened Text

  /** The text form of a UUID: 36 characters, none of them a slash. */
  predicate IsUuid(id: string) {
    |id| == 36 && '/' !in id
  }

  function CleanFilename(raw: string): string {
    Base(TrimSpace(raw))
  }

  function ObjectKey(tenant: string, application: string, id: string, filename: string): string {
    tenant + "/" + application + "/" + id + "/" + filename
  }

  /** Reads the file name off a key. A key can only end in a slash when the name is "/". */
  function FilenameOf(key: string): string {
    if key != "" && key[|key| - 1] == '/' then "/" else AfterSlash(key)
  }

  /** Reads the file id off a key: the 36 characters before the slash before the name. */
  function IdOf(key: string): string {
    var end := |key| - |FilenameOf(key)| - 1;
    if 36 <= end <= |key| then key[end - 36..end] else ""
  }

  /** Id and cleaned name can be read back from the key, whatever the tenant and the
      application contain (slashes included). */
  lemma DecodeObjectKey(tenant: string, application: string, id: string, raw: string)
    requires IsUuid(id)
    ensures var key := ObjectKey(tenant, application, id, CleanFilename(raw));
            IdOf(key) == id && FilenameOf(key) == CleanFilename(raw)
  {
    var name := CleanFilename(raw);
    var head := tenant + "/" + application + "/" + id;
    var key := ObjectKey(tenant, application, id, name);
    assert key == head + "/" + name;
    BaseShape(TrimSpace(raw));
    if name != "/" {
      assert key[|key| - 1] == name[|name| - 1];
      AfterSlashOfAppend(head, name);
    }
    assert FilenameOf(key) == name;
    var end := |key| - |name| - 1;
    assert end == |head|;
    assert key[end - 36..end] == head[end - 36..] == id;
  }

  /** Files with different ids never share an object key. */
  lemma DistinctFilesDistinctKeys(t1: string, a1: string, id1: string, raw1: string,
                                  t2: string, a2: string, id2: string, raw2: string)
    requires IsUuid(id1) && IsUuid(id2)
    requires ObjectKey(t1, a1, id1, CleanFilename(raw1)) == ObjectKey(t2, a2, id2, CleanFilename(raw2))
    ensures id1 == id2 && CleanFilename(raw1) == CleanFilename(raw2)
  {
    DecodeObjectKey(t1, a1, id1, raw1);
    DecodeObjectKey(t2, a2, id2, raw2);
  }
}
