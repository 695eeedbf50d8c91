/** The string operations of the Go standard library that the file service relies on. */
module Text {

  /** unicode.IsSpace: the White_Space code points, which strings.TrimSpace removes. */
  predicate IsSpace(c: char) {
    var n := c as int;
    || 9 <= n <= 13 || n == 0x20 || n == 0x85 || n == 0xA0 || n == 0x1680 || 0x2000 <= n <= 0x200A
    || n == 0x2028 || n == 0x2029 || n == 0x202F || n == 0x205F || n == 0x3000
  }

  /** Among the ASCII characters these six. */
  lemma AsciiSpace(c: char)
    requires c as int < 128
    ensures IsSpace(c) <==> c in ['\t', '\n', '\U{000B}', '\U{000C}', '\r', ' ']
  {
  }

  predicate IsQuote(c: char) {
    c == '"'
  }

  function TrimLeft(s: string, cut: char -> bool): string {
    if s != "" && cut(s[0]) then TrimLeft(s[1..], cut) else s
  }

  function TrimRight(s: string, cut: char -> bool): string {
    if s != "" && cut(s[|s| - 1]) then TrimRight(s[..|s| - 1], cut) else s
  }

  function Trim(s: string, cut: char -> bool): string {
    TrimRight(TrimLeft(s, cut), cut)
  }

  function TrimSpace(s: string): string {
    Trim(s, IsSpace)
  }

  /** Neither end of `s` is a character that `cut` removes. */
  predicate Trimmed(s: string, cut: char -> bool) {
    s == "" || (!cut(s[0]) && !cut(s[|s| - 1]))
  }

  lemma {:induction false} TrimLeftEnds(s: string, cut: char -> bool)
    ensures var t := TrimLeft(s, cut); t == "" || !cut(t[0])
  {
    if s != "" && cut(s[0]) {
      TrimLeftEnds(s[1..], cut);
    }
  }

  lemma {:induction false} TrimRightEnds(s: string, cut: char -> bool)
    ensures var t := TrimRight(s, cut); t <= s && (t == "" || !cut(t[|t| - 1]))
  {
    if s != "" && cut(s[|s| - 1]) {
      TrimRightEnds(s[..|s| - 1], cut);
    }
  }

  /** Trimming removes exactly what keeps a string from being trimmed: the result is
      trimmed, and a string is its own trimming if and only if it already was. */
  lemma TrimNormalizes(s: string, cut: char -> bool)
    ensures Trimmed(Trim(s, cut), cut)
    ensures Trim(s, cut) == s <==> Trimmed(s, cut)
  {
    TrimLeftEnds(s, cut);
    TrimRightEnds(TrimLeft(s, cut), cut);
  }

  lemma {:induction false} TrimLeftCuts(s: string, cut: char -> bool, i: nat)
    requires i <= |s| && (forall k :: 0 <= k < i ==> cut(s[k])) && (i < |s| ==> !cut(s[i]))
    ensures TrimLeft(s, cut) == s[i..]
  {
    if i > 0 {
      TrimLeftCuts(s[1..], cut, i - 1);
      assert s[1..][i - 1..] == s[i..];
    }
  }

  lemma {:induction false} TrimRightCuts(s: string, cut: char -> bool, j: nat)
    requires j <= |s| && (forall k :: j <= k < |s| ==> cut(s[k])) && (0 < j ==> !cut(s[j - 1]))
    ensures TrimRight(s, cut) == s[..j]
    decreases |s|
  {
    if j < |s| {
      TrimRightCuts(s[..|s| - 1], cut, j);
      assert s[..|s| - 1][..j] == s[..j];
    } else {
      assert s[..j] == s;
    }
  }

  /** Trimming takes away what is cut from both ends, and nothing else. */
  lemma TrimCutsEnds(s: string, cut: char -> bool, i: nat, j: nat)
    requires i < j <= |s| && !cut(s[i]) && !cut(s[j - 1])
    requires forall k :: 0 <= k < i || j <= k < |s| ==> cut(s[k])
    ensures Trim(s, cut) == s[i..j]
  {
    TrimLeftCuts(s, cut, i);
    TrimRightCuts(s[i..], cut, j - i);
    assert s[i..][..j - i] == s[i..j];
  }

  lemma TrimCutsAll(s: string, cut: char -> bool)
    requires forall k :: 0 <= k < |s| ==> cut(s[k])
    ensures Trim(s, cut) == ""
  {
    TrimLeftCuts(s, cut, |s|);
  }

  function LowerChar(c: char): char {
    if 'A' <= c <= 'Z' then (c as int + 32) as char else c
  }

  /** strings.ToLower as far as it matters for a checksum: no character outside ASCII
      lower-cases to a hexadecimal digit. */
  function Lower(s: string): (r: string)
    ensures |r| == |s|
  {
    seq(|s|, i requires 0 <= i < |s| => LowerChar(s[i]))
  }

  /** Lower-casing maps the 26 capitals to their small letters and keeps the rest. */
  lemma LowerMaps(s: string, i: int)
    requires 0 <= i < |s|
    ensures 'A' <= s[i] <= 'Z' ==> Lower(s)[i] as int - 'a' as int == s[i] as int - 'A' as int
    ensures !('A' <= s[i] <= 'Z') ==> Lower(s)[i] == s[i]
  {
  }

  predicate IsHex(c: char) {
    '0' <= c <= '9' || 'a' <= c <= 'f' || 'A' <= c <= 'F'
  }

  /** hex.DecodeString succeeds with 32 bytes. */
  predicate ValidChecksum(s: string) {
    |s| == 64 && forall i :: 0 <= i < |s| ==> IsHex(s[i])
  }

  function StripSlashes(s: string): string {
    TrimRight(s, c => c == '/')
  }

  /** What follows the last slash, or everything when there is none. */
  function AfterSlash(s: string): string {
    if s == "" then ""
    else if s[|s| - 1] == '/' then ""
    else AfterSlash(s[..|s| - 1]) + [s[|s| - 1]]
  }

  /** filepath.Base on a slash-separated system. */
  function Base(path: string): string {
    if path == "" then "."
    else
      var name := AfterSlash(StripSlashes(path));
      if name == "" then "/" else name
  }

  lemma {:induction false} AfterSlashIsSlashFree(s: string)
    ensures '/' !in AfterSlash(s)
  {
    if s != "" && s[|s| - 1] != '/' {
      AfterSlashIsSlashFree(s[..|s| - 1]);
    }
  }

  /** A cleaned file name has no slash, except that a name made only of slashes becomes "/". */
  lemma BaseShape(path: string)
    ensures Base(path) == "/" || (Base(path) != "" && '/' !in Base(path))
  {
    AfterSlashIsSlashFree(StripSlashes(path));
  }

  lemma {:induction false} AfterSlashOfAppend(prefix: string, name: string)
    requires '/' !in name
    ensures AfterSlash(prefix + "/" + name) == name
  {
    var s := prefix + "/" + name;
    if name == "" {
      assert s[|s| - 1] == '/';
    } else {
      assert s[|s| - 1] == name[|name| - 1];
      assert s[..|s| - 1] == prefix + "/" + name[..|name| - 1];
      AfterSlashOfAppend(prefix, name[..|name| - 1]);
      assert name[..|name| - 1] + [name[|name| - 1]] == name;
    }
  }

  /** The base of a path is its last component, trailing slashes aside. */
  lemma BaseIsLastComponent(dir: string, name: string, slashes: nat)
    requires name != "" && '/' !in name
    ensures Base(name + Slashes(slashes)) == name
    ensures Base(dir + "/" + name + Slashes(slashes)) == name
  {
    var (bare, full) := (name + Slashes(slashes), dir + "/" + name + Slashes(slashes));
    TrimRightCuts(bare, c => c == '/', |name|);
    TrimRightCuts(full, c => c == '/', |dir| + 1 + |name|);
    assert bare[..|name|] == name;
    assert full[..|dir| + 1 + |name|] == dir + "/" + name;
    AfterSlashOfAppend(dir, name);
    AfterSlashOfBare(name);
  }

  function Slashes(n: nat): (s: string)
    ensures |s| == n && forall i :: 0 <= i < n ==> s[i] == '/'
  {
    seq(n, i => '/')
  }

  lemma {:induction false} AfterSlashOfBare(name: string)
    requires '/' !in name
    ensures AfterSlash(name) == name
  {
    if name != "" {
      AfterSlashOfBare(name[..|name| - 1]);
      assert name[..|name| - 1] + [name[|name| - 1]] == name;
    }
  }
}
