/** The byte stream an artifact digest is computed over.

    A byte is written as a character; nothing depends on there being only 256 of them.
  */
module Digest {
  import opened Basics
  import opened Order

  const NUL: char := '\0'

  datatype Entry = Entry(mode: nat, content: string)

  datatype File = File(path: string, entry: Entry)

  /** Paths hold no NUL, and only the nine permission bits of a mode are written. */
  predicate Legal(f: File) { NUL !in f.path && f.entry.mode < 512 }

  predicate AllLegal(files: seq<File>) { forall f :: f in files ==> Legal(f) }

  // ---------------------------------------------------------------- encoding

  function Digit(d: nat): char
    requires d < 10
  {
    '0' + d as char
  }

  function Decimal(n: nat): string {
    if n < 10 then [Digit(n)] else Decimal(n / 10) + [Digit(n % 10)]
  }

  /** `%04o` of the permission bits. */
  function Octal(mode: nat): string
    requires mode < 512
  {
    ['0', Digit(mode / 64), Digit(mode / 8 % 8), Digit(mode % 8)]
  }

  function Encode(f: File): string
    requires Legal(f)
  {
    "file" + [NUL] + f.path + [NUL] + Octal(f.entry.mode) + [NUL] + Decimal(|f.entry.content|) + [NUL] + f.entry.content + [NUL]
  }

  function EncodeAll(files: seq<File>): string
    requires AllLegal(files)
  {
    if files == [] then "" else Encode(files[0]) + EncodeAll(files[1..])
  }

  // ---------------------------------------------------------------- parsing

  /** The text before the first NUL, and the text after it. */
  function Cut(s: string): Option<(string, string)> {
    if s == "" then None
    else if s[0] == NUL then Some(("", s[1..]))
    else
      var rest := Cut(s[1..]);
      if rest.None? then None else Some(([s[0]] + rest.value.0, rest.value.1))
  }

  function Value(s: string, base: nat): nat {
    if s == "" then 0 else
    var c := s[|s| - 1];
    Value(s[..|s| - 1], base) * base + if '0' <= c <= '9' then (c - '0') as nat else 0
  }

  /** One file off the front of the stream, with the rest. */
  function Parse(s: string): Option<(File, string)> {
    var tag := Cut(s);
    if tag.None? || tag.value.0 != "file" then None else
    var path := Cut(tag.value.1);
    if path.None? then None else
    var mode := Cut(path.value.1);
    if mode.None? then None else
    var size := Cut(mode.value.1);
    if size.None? then None else
    var n, rest := Value(size.value.0, 10), size.value.1;
    if n >= |rest| || rest[n] != NUL then None else
    Some((File(path.value.0, Entry(Value(mode.value.0, 8), rest[..n])), rest[n + 1..]))
  }

  lemma {:induction false} CutShrinks(s: string)
    ensures Cut(s).Some? ==> |Cut(s).value.1| < |s|
  {
    if s != "" && s[0] != NUL { CutShrinks(s[1..]); }
  }

  lemma ParseShrinks(s: string)
    ensures Parse(s).Some? ==> |Parse(s).value.1| < |s|
  {
    CutShrinks(s);
    if Cut(s).Some? {
      var path := Cut(s).value.1;
      CutShrinks(path);
      if Cut(path).Some? {
        var mode := Cut(path).value.1;
        CutShrinks(mode);
        if Cut(mode).Some? { CutShrinks(Cut(mode).value.1); }
      }
    }
  }

  function ParseAll(s: string): Option<seq<File>>
    decreases |s|
  {
    if s == "" then Some([]) else
    var first := Parse(s);
    if first.None? then None else
    ParseShrinks(s);
    var rest := ParseAll(first.value.1);
    if rest.None? then None else Some([first.value.0] + rest.value)
  }

  // ---------------------------------------------------------------- the parser inverts the encoder

  lemma {:induction false} CutAt(a: string, b: string)
    requires NUL !in a
    ensures Cut(a + [NUL] + b) == Some((a, b))
  {
    var s := a + [NUL] + b;
    if a == "" {
      assert s[1..] == b;
    } else {
      assert s[0] == a[0] && a[0] in a;
      assert s[1..] == a[1..] + [NUL] + b;
      CutAt(a[1..], b);
      assert [a[0]] + a[1..] == a;
    }
  }

  lemma {:induction false} DecimalBack(n: nat)
    ensures Value(Decimal(n), 10) == n && NUL !in Decimal(n)
  {
    if n >= 10 {
      DecimalBack(n / 10);
      assert Decimal(n)[..|Decimal(n)| - 1] == Decimal(n / 10);
    } else {
      assert Decimal(n)[..0] == "";
    }
  }

  lemma OctalBack(mode: nat)
    requires mode < 512
    ensures Value(Octal(mode), 8) == mode && NUL !in Octal(mode)
  {
    var s := Octal(mode);
    assert s[..3] == ['0', Digit(mode / 64), Digit(mode / 8 % 8)];
    assert s[..3][..2] == ['0', Digit(mode / 64)];
    assert s[..3][..2][..1] == ['0'];
    assert s[..3][..2][..1][..0] == "";
    assert Value(s[..3][..2][..1], 8) == 0;
    assert Value(s[..3][..2], 8) == mode / 64;
    assert Value(s[..3], 8) == mode / 8;
  }

  lemma ParseBack(f: File, rest: string)
    requires Legal(f)
    ensures Parse(Encode(f) + rest) == Some((f, rest))
  {
    var content := f.entry.content;
    var body := content + [NUL] + rest;
    var size := Decimal(|content|) + [NUL] + body;
    var mode := Octal(f.entry.mode) + [NUL] + size;
    var path := f.path + [NUL] + mode;
    assert Encode(f) + rest == "file" + [NUL] + path;
    CutAt("file", path);
    CutAt(f.path, mode);
    OctalBack(f.entry.mode);
    CutAt(Octal(f.entry.mode), size);
    DecimalBack(|content|);
    CutAt(Decimal(|content|), body);
    assert body[..|content|] == content && body[|content|] == NUL && body[|content| + 1..] == rest;
  }

  lemma {:induction false} ParseAllBack(files: seq<File>)
    requires AllLegal(files)
    ensures ParseAll(EncodeAll(files)) == Some(files)
  {
    if files != [] {
      ParseBack(files[0], EncodeAll(files[1..]));
      ParseAllBack(files[1..]);
      assert [files[0]] + files[1..] == files;
    }
  }

  /** Two lists of files with the same stream are the same list. */
  lemma StreamIsInjective(a: seq<File>, b: seq<File>)
    requires AllLegal(a) && AllLegal(b)
    requires EncodeAll(a) == EncodeAll(b)
    ensures a == b
  {
    ParseAllBack(a);
    ParseAllBack(b);
  }

  // ---------------------------------------------------------------- whole trees

  type Tree = map<string, Entry>

  ghost predicate LegalTree(tree: Tree) { forall p :: p in tree ==> Legal(File(p, tree[p])) }

  ghost predicate Lists(files: seq<File>, tree: Tree) {
    && (forall f :: f in files ==> f.path in tree && tree[f.path] == f.entry)
    && (forall p :: p in tree ==> File(p, tree[p]) in files)
  }

  method SortedPaths(tree: Tree) returns (sorted: seq<string>)
    ensures Sorted(sorted) && forall p :: p in sorted <==> p in tree
  {
    var paths: seq<string> := [];
    var left := tree.Keys;
    while left != {}
      invariant left <= tree.Keys && forall p :: p in paths <==> p in tree && p !in left
      decreases |left|
    {
      var p :| p in left;
      paths := paths + [p];
      left := left - {p};
    }
    sorted := SortStrings(paths);
    forall p ensures p in sorted <==> p in tree { assert p in sorted <==> p in multiset(paths); }
  }

  ghost predicate AreFiles(files: seq<File>, paths: seq<string>, tree: Tree) {
    |files| == |paths| && forall i :: 0 <= i < |files| ==> paths[i] in tree && files[i] == File(paths[i], tree[paths[i]])
  }

  lemma FilesList(files: seq<File>, paths: seq<string>, tree: Tree)
    requires AreFiles(files, paths, tree) && forall p :: p in tree ==> p in paths
    ensures Lists(files, tree)
  {
  }

  lemma SortedFiles(files: seq<File>, paths: seq<string>, tree: Tree)
    requires AreFiles(files, paths, tree) && Sorted(paths)
    ensures forall i, j :: 0 <= i < j < |files| ==> Leq(files[i].path, files[j].path)
  {
  }

  lemma NextFile(files: seq<File>, paths: seq<string>, k: nat, tree: Tree)
    requires k < |paths| && AreFiles(files, paths[..k], tree) && AllLegal(files) && LegalTree(tree) && paths[k] in tree
    ensures var file := File(paths[k], tree[paths[k]]);
            && AreFiles(files + [file], paths[..k + 1], tree) && AllLegal(files + [file])
            && EncodeAll(files + [file]) == EncodeAll(files) + Encode(file)
  {
    EncodeMore(files, File(paths[k], tree[paths[k]]));
  }

  /** Collect the files, sort them by path, and write them out. */
  method DigestStream(tree: Tree) returns (stream: string, files: seq<File>)
    requires LegalTree(tree)
    ensures Lists(files, tree) && (forall i, j :: 0 <= i < j < |files| ==> Leq(files[i].path, files[j].path))
    ensures AllLegal(files) && stream == EncodeAll(files)
  {
    var sorted := SortedPaths(tree);
    stream, files := "", [];
    for k := 0 to |sorted|
      invariant AreFiles(files, sorted[..k], tree)
      invariant AllLegal(files) && stream == EncodeAll(files)
    {
      var file := File(sorted[k], tree[sorted[k]]);
      NextFile(files, sorted, k, tree);
      stream := stream + Encode(file);
      files := files + [file];
    }
    assert sorted[..|sorted|] == sorted;
    FilesList(files, sorted, tree);
    SortedFiles(files, sorted, tree);
  }

  lemma {:induction false} EncodeMore(files: seq<File>, f: File)
    requires AllLegal(files) && Legal(f)
    ensures EncodeAll(files + [f]) == EncodeAll(files) + Encode(f)
  {
    if files == [] {
      assert EncodeAll([f][1..]) == "";
    } else {
      assert (files + [f])[1..] == files[1..] + [f];
      EncodeMore(files[1..], f);
    }
  }

  /** Trees with the same stream are the same tree: same paths, modes and contents. */
  lemma SameStreamSameTree(a: Tree, b: Tree, inA: seq<File>, inB: seq<File>)
    requires LegalTree(a) && LegalTree(b) && Lists(inA, a) && Lists(inB, b)
    requires AllLegal(inA) && AllLegal(inB) && EncodeAll(inA) == EncodeAll(inB)
    ensures a == b
  {
    StreamIsInjective(inA, inB);
    forall p ensures (p in a <==> p in b) && (p in a && p in b ==> a[p] == b[p]) {
      if p in a { assert File(p, a[p]) in inB; }
      if p in b { assert File(p, b[p]) in inA; }
    }
  }
}
