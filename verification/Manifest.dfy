/** The test manifest: sorted, length-framed pairs of test path and content hash. */
module Manifest {
  import opened Wrappers
  import opened Utf8

  /** SHA-256 as an injective constructor, beside hash texts that are the digest of nothing known. */
  datatype Sha = Sha256(bytes: Bytes) | Foreign(text: string)

  datatype DiffFile = DiffFile(path: Text, content: Option<Text>)

  datatype Pair = Pair(path: Text, content: Text)

  /** The bytes of `amazon-explorer-ai-review-test-manifest-v1` and a terminating zero. */
  const DOMAIN: Bytes := [97, 109, 97, 122, 111, 110, 45, 101, 120, 112, 108, 111, 114, 101, 114, 45, 97,
    105, 45, 114, 101, 118, 105, 101, 119, 45, 116, 101, 115, 116, 45, 109, 97, 110, 105, 102, 101, 115,
    116, 45, 118, 49, 0]

  const FRAME_LIMIT := 0x1_0000_0000

  /** What fits a four-byte length and encodes as UTF-8. */
  predicate Framable(text: Text) {
    Scalars(text) && |EncodeAll(text)| < FRAME_LIMIT
  }

  predicate FramablePair(pair: Pair) {
    Framable(pair.path) && Framable(pair.content)
  }

  /** `n.to_bytes(4, "big")` */
  function Length4(n: nat): (bytes: Bytes)
    requires n < FRAME_LIMIT
    ensures |bytes| == 4
  {
    [n / 0x100_0000, n / 0x1_0000 % 0x100, n / 0x100 % 0x100, n % 0x100]
  }

  function Frame(text: Text): Bytes
    requires Framable(text)
  {
    Length4(|EncodeAll(text)|) + EncodeAll(text)
  }

  function FramePair(pair: Pair): Bytes
    requires FramablePair(pair)
  {
    Frame(pair.path) + Frame(pair.content)
  }

  predicate AllFramable(pairs: seq<Pair>) {
    forall i :: 0 <= i < |pairs| ==> FramablePair(pairs[i])
  }

  /** The digested bytes: pair after pair. */
  function Framed(pairs: seq<Pair>): Bytes
    requires AllFramable(pairs)
  {
    if pairs == [] then []
    else
      assert FramablePair(pairs[|pairs| - 1]);
      Framed(pairs[..|pairs| - 1]) + FramePair(pairs[|pairs| - 1])
  }

  /** `sorted(paths)` by code point, repetitions kept. */
  function SortPaths(paths: seq<Text>): seq<Text> {
    if paths == [] then [] else InsertPath(paths[0], SortPaths(paths[1..]))
  }

  function InsertPath(path: Text, paths: seq<Text>): seq<Text> {
    if paths == [] || !Less(paths[0], path) then [path] + paths
    else [paths[0]] + InsertPath(path, paths[1..])
  }

  /** `{item.path: item for item in files}.get(path)`: the last file of a path wins. */
  function FileAt(files: seq<DiffFile>, path: Text): Option<DiffFile> {
    if files == [] then None
    else if files[|files| - 1].path == path then Some(files[|files| - 1])
    else FileAt(files[..|files| - 1], path)
  }

  function ContentOf(files: seq<DiffFile>, path: Text): Option<Text> {
    match FileAt(files, path)
    case Some(file) => file.content
    case None => None
  }

  /** The pairs of `paths` in the order given, if every path has a content hash. */
  function PairsOf(files: seq<DiffFile>, paths: seq<Text>): Option<seq<Pair>> {
    if paths == [] then Some([])
    else
      var front := PairsOf(files, paths[..|paths| - 1]);
      var path := paths[|paths| - 1];
      if front.Some? && ContentOf(files, path).Some?
      then Some(front.value + [Pair(path, ContentOf(files, path).value)]) else None
  }

  predicate FramableFiles(files: seq<DiffFile>) {
    forall i :: 0 <= i < |files| ==>
      Framable(files[i].path) && (files[i].content.Some? ==> Framable(files[i].content.value))
  }

  lemma {:induction false} FileAtIsFile(files: seq<DiffFile>, path: Text)
    ensures FileAt(files, path).Some? ==> FileAt(files, path).value in files && FileAt(files, path).value.path == path
    ensures FileAt(files, path).Some? <==> exists i :: 0 <= i < |files| && files[i].path == path
  {
    if files != [] {
      var front := files[..|files| - 1];
      FileAtIsFile(front, path);
      assert files == front + [files[|files| - 1]];
      if FileAt(front, path).Some? {
        var i :| 0 <= i < |front| && front[i].path == path;
        assert files[i].path == path;
      }
    }
  }

  lemma {:induction false} PairsFramable(files: seq<DiffFile>, paths: seq<Text>, pairs: seq<Pair>)
    requires FramableFiles(files) && PairsOf(files, paths) == Some(pairs)
    ensures |pairs| == |paths| && AllFramable(pairs)
    ensures forall i :: 0 <= i < |pairs| ==>
              pairs[i].path == paths[i] && ContentOf(files, paths[i]) == Some(pairs[i].content)
  {
    if paths != [] {
      var path := paths[|paths| - 1];
      PairsFramable(files, paths[..|paths| - 1], pairs[..|pairs| - 1]);
      FileAtIsFile(files, path);
    }
  }

  lemma {:induction false} PairsPrefix(files: seq<DiffFile>, paths: seq<Text>, i: nat)
    requires i < |paths|
    ensures PairsOf(files, paths[..i + 1])
         == if PairsOf(files, paths[..i]).Some? && ContentOf(files, paths[i]).Some?
            then Some(PairsOf(files, paths[..i]).value + [Pair(paths[i], ContentOf(files, paths[i]).value)])
            else None
  {
    assert paths[..i + 1][..i] == paths[..i];
  }

  lemma {:induction false} NoPairsAfterGap(files: seq<DiffFile>, paths: seq<Text>, i: nat)
    requires i <= |paths| && PairsOf(files, paths[..i]).None?
    ensures PairsOf(files, paths).None?
    decreases |paths| - i
  {
    if i == |paths| {
      assert paths[..i] == paths;
    } else {
      PairsPrefix(files, paths, i);
      NoPairsAfterGap(files, paths, i + 1);
    }
  }

  /** Feeds the digest one framed pair at a time; a path without a content hash gives no digest. */
  method BuildTestManifest(files: seq<DiffFile>, testPaths: seq<Text>) returns (manifest: Option<Sha>)
    requires FramableFiles(files)
    ensures manifest == ManifestOf(files, testPaths)
  {
    var paths := SortPaths(testPaths);
    var digest := DOMAIN;
    ghost var pairs: seq<Pair> := [];
    for i := 0 to |paths|
      invariant PairsOf(files, paths[..i]) == Some(pairs) && AllFramable(pairs)
      invariant digest == DOMAIN + Framed(pairs)
    {
      var content := ContentOf(files, paths[i]);
      PairsPrefix(files, paths, i);
      if content.None? {
        NoPairsAfterGap(files, paths, i + 1);
        return None;
      }
      FileAtIsFile(files, paths[i]);
      DigestStep(digest, pairs, Pair(paths[i], content.value));
      digest := digest + Frame(paths[i]);
      digest := digest + Frame(content.value);
      pairs := pairs + [Pair(paths[i], content.value)];
    }
    assert paths[..|paths|] == paths;
    return Some(Sha256(digest));
  }

  lemma {:induction false} DigestStep(digest: Bytes, pairs: seq<Pair>, pair: Pair)
    requires AllFramable(pairs) && FramablePair(pair) && digest == DOMAIN + Framed(pairs)
    ensures AllFramable(pairs + [pair])
    ensures digest + Frame(pair.path) + Frame(pair.content) == DOMAIN + Framed(pairs + [pair])
  {
    FramedAppend(pairs, pair);
  }

  lemma {:induction false} FramedAppend(pairs: seq<Pair>, pair: Pair)
    requires AllFramable(pairs) && FramablePair(pair)
    ensures AllFramable(pairs + [pair])
    ensures Framed(pairs + [pair]) == Framed(pairs) + FramePair(pair)
  {
    assert (pairs + [pair])[..|pairs|] == pairs;
  }

  /** The digest of the sorted pairs. */
  function ManifestOf(files: seq<DiffFile>, testPaths: seq<Text>): Option<Sha>
    requires FramableFiles(files)
  {
    match PairsOf(files, SortPaths(testPaths))
    case None => None
    case Some(pairs) =>
      PairsFramable(files, SortPaths(testPaths), pairs);
      Some(Sha256(DOMAIN + Framed(pairs)))
  }

  // ---------------------------------------------------------------- unique decoding

  function TakeLength(bytes: Bytes): int
    requires |bytes| >= 4
  {
    bytes[0] * 0x100_0000 + bytes[1] * 0x1_0000 + bytes[2] * 0x100 + bytes[3]
  }

  lemma {:induction false} LengthReads(n: nat, rest: Bytes)
    requires n < FRAME_LIMIT
    ensures TakeLength(Length4(n) + rest) == n
  {
    assert n / 0x1_0000 == n / 0x100_0000 * 0x100 + n / 0x1_0000 % 0x100;
    assert n / 0x100 == n / 0x1_0000 * 0x100 + n / 0x100 % 0x100;
    assert n == n / 0x100 * 0x100 + n % 0x100;
  }

  lemma {:induction false} FrameDecodes(a: Text, b: Text, x: Bytes, y: Bytes)
    requires Framable(a) && Framable(b) && Frame(a) + x == Frame(b) + y
    ensures a == b && x == y
  {
    var p, q := EncodeAll(a), EncodeAll(b);
    assert Frame(a) + x == Length4(|p|) + (p + x);
    assert Frame(b) + y == Length4(|q|) + (q + y);
    LengthReads(|p|, p + x);
    LengthReads(|q|, q + y);
    assert (Frame(a) + x)[4..] == p + x && (Frame(b) + y)[4..] == q + y;
    assert p == (p + x)[..|p|] == q && x == (p + x)[|p|..] == y;
    DecodeEncode(a);
    DecodeEncode(b);
  }

  lemma {:induction false} Associate(x: Bytes, y: Bytes, z: Bytes)
    ensures (x + y) + z == x + (y + z)
  {
  }

  /** Framing from the front gives the same bytes. */
  lemma {:induction false} FramedFromFront(pair: Pair, pairs: seq<Pair>)
    requires FramablePair(pair) && AllFramable(pairs)
    ensures AllFramable([pair] + pairs)
    ensures Framed([pair] + pairs) == FramePair(pair) + Framed(pairs)
  {
    if pairs == [] {
      assert [pair] + pairs == [] + [pair];
      FramedAppend([], pair);
    } else {
      var front, last := pairs[..|pairs| - 1], pairs[|pairs| - 1];
      assert pairs == front + [last] && FramablePair(last);
      assert [pair] + pairs == ([pair] + front) + [last];
      FramedFromFront(pair, front);
      FramedAppend(front, last);
      FramedAppend([pair] + front, last);
      Associate(FramePair(pair), Framed(front), FramePair(last));
    }
  }

  lemma {:induction false} PairDecodes(a: Pair, b: Pair, x: Bytes, y: Bytes)
    requires FramablePair(a) && FramablePair(b) && FramePair(a) + x == FramePair(b) + y
    ensures a == b && x == y
  {
    assert FramePair(a) + x == Frame(a.path) + (Frame(a.content) + x);
    assert FramePair(b) + y == Frame(b.path) + (Frame(b.content) + y);
    FrameDecodes(a.path, b.path, Frame(a.content) + x, Frame(b.content) + y);
    FrameDecodes(a.content, b.content, x, y);
  }

  lemma {:induction false} FramedNotEmpty(pairs: seq<Pair>)
    requires AllFramable(pairs)
    ensures Framed(pairs) == [] <==> pairs == []
  {
    if pairs != [] {
      assert FramablePair(pairs[|pairs| - 1]);
      assert |FramePair(pairs[|pairs| - 1])| >= 4;
    }
  }

  /** The framed encoding is uniquely decodable. */
  lemma {:induction false} FramedInjective(a: seq<Pair>, b: seq<Pair>)
    requires AllFramable(a) && AllFramable(b) && Framed(a) == Framed(b)
    ensures a == b
  {
    FramedNotEmpty(a);
    FramedNotEmpty(b);
    if a != [] {
      assert a == [a[0]] + a[1..] && b == [b[0]] + b[1..];
      FramedFromFront(a[0], a[1..]);
      FramedFromFront(b[0], b[1..]);
      PairDecodes(a[0], b[0], Framed(a[1..]), Framed(b[1..]));
      FramedInjective(a[1..], b[1..]);
    }
  }

  /** Equal manifest digests, whatever the two policies, mean equal sorted lists of pairs. */
  lemma {:induction false} ManifestIdentifiesContent(
    files: seq<DiffFile>, paths: seq<Text>, otherFiles: seq<DiffFile>, otherPaths: seq<Text>)
    requires FramableFiles(files) && FramableFiles(otherFiles)
    requires ManifestOf(files, paths).Some? && ManifestOf(otherFiles, otherPaths).Some?
    ensures ManifestOf(files, paths) == ManifestOf(otherFiles, otherPaths)
       <==> PairsOf(files, SortPaths(paths)) == PairsOf(otherFiles, SortPaths(otherPaths))
  {
    var a := PairsOf(files, SortPaths(paths)).value;
    var b := PairsOf(otherFiles, SortPaths(otherPaths)).value;
    PairsFramable(files, SortPaths(paths), a);
    PairsFramable(otherFiles, SortPaths(otherPaths), b);
    if DOMAIN + Framed(a) == DOMAIN + Framed(b) {
      assert Framed(a) == (DOMAIN + Framed(a))[|DOMAIN|..] == (DOMAIN + Framed(b))[|DOMAIN|..];
      FramedInjective(a, b);
    }
  }

  // ---------------------------------------------------------------- order of the input paths

  predicate Ascending(paths: seq<Text>) {
    forall i, j :: 0 <= i < j < |paths| ==> !Less(paths[j], paths[i])
  }

  lemma {:induction false} InsertKeepsAll(path: Text, paths: seq<Text>)
    ensures multiset(InsertPath(path, paths)) == multiset(paths) + multiset{path}
  {
    if paths != [] {
      assert paths == [paths[0]] + paths[1..];
      if Less(paths[0], path) {
        InsertKeepsAll(path, paths[1..]);
      }
    }
  }

  lemma {:induction false} InsertAscends(path: Text, paths: seq<Text>)
    requires Ascending(paths)
    ensures Ascending(InsertPath(path, paths))
  {
    if paths != [] {
      if Less(paths[0], path) {
        var rest := InsertPath(path, paths[1..]);
        InsertAscends(path, paths[1..]);
        InsertKeepsAll(path, paths[1..]);
        forall j | 0 <= j < |rest| ensures !Less(rest[j], paths[0]) {
          assert rest[j] in multiset(rest);
          LessTotal(paths[0], path);
        }
      } else {
        forall j | 0 <= j < |paths| ensures !Less(paths[j], path) {
          if Less(paths[j], path) {
            LessTotal(paths[0], path);
            LessTotal(paths[j], paths[0]);
            if j > 0 && paths[j] != paths[0] && Less(path, paths[0]) {
              LessTransitive(paths[j], path, paths[0]);
            }
          }
        }
      }
    }
  }

  lemma {:induction false} SortSorts(paths: seq<Text>)
    ensures Ascending(SortPaths(paths)) && multiset(SortPaths(paths)) == multiset(paths)
  {
    if paths != [] {
      SortSorts(paths[1..]);
      InsertAscends(paths[0], SortPaths(paths[1..]));
      InsertKeepsAll(paths[0], SortPaths(paths[1..]));
      assert paths == [paths[0]] + paths[1..];
    }
  }

  lemma {:induction false} SmallestFirst(a: seq<Text>, b: seq<Text>)
    requires Ascending(a) && a != [] && b != [] && multiset(a) == multiset(b)
    ensures !Less(b[0], a[0])
  {
    assert b[0] in multiset(a);
    var j :| 0 <= j < |a| && a[j] == b[0];
    LessTotal(a[0], a[0]);
  }

  lemma {:induction false} AscendingUnique(a: seq<Text>, b: seq<Text>)
    requires Ascending(a) && Ascending(b) && multiset(a) == multiset(b)
    ensures a == b
  {
    assert |a| == |multiset(a)| == |multiset(b)| == |b|;
    if a != [] {
      SmallestFirst(a, b);
      SmallestFirst(b, a);
      LessTotal(a[0], b[0]);
      assert a == [a[0]] + a[1..] && b == [b[0]] + b[1..];
      assert multiset(a[1..]) == multiset(a) - multiset{a[0]} == multiset(b[1..]);
      AscendingUnique(a[1..], b[1..]);
    }
  }

  /** The order in which the test paths are listed does not matter. */
  lemma {:induction false} ManifestIgnoresOrder(files: seq<DiffFile>, paths: seq<Text>, otherPaths: seq<Text>)
    requires FramableFiles(files) && multiset(paths) == multiset(otherPaths)
    ensures ManifestOf(files, paths) == ManifestOf(files, otherPaths)
  {
    SortSorts(paths);
    SortSorts(otherPaths);
    AscendingUnique(SortPaths(paths), SortPaths(otherPaths));
  }
}
