/**
 The digest of a template bundle (src/aotp/template_registry.py): which bytes are fed to the hash,
 and what they determine.  The hash itself is a parameter.
 */
module TemplateBundle {
  import opened Basics

  type Byte = b: int | 0 <= b < 256

  type Bytes = seq<Byte>

  const SLASH: Byte := 47

  /** A path relative to the bundle, as its parts. */
  type Path = seq<Bytes>

  datatype File = File(path: Path, content: Bytes)

  /** What the bundle's path names; a directory comes with its files in whatever order they are listed. */
  datatype Node = Missing | Regular(content: Bytes) | Directory(files: seq<File>)

  datatype BundleError = BundleMissing | BundleEmpty | LengthOverflow

  predicate PlainPart(part: Bytes) {
    part != [] && SLASH !in part
  }

  predicate ValidPath(p: Path) {
    p != [] && forall i :: 0 <= i < |p| ==> PlainPart(p[i])
  }

  /** Every listed file has a path of its own. */
  ghost predicate Listing(files: seq<File>) {
    && (forall i :: 0 <= i < |files| ==> ValidPath(files[i].path))
    && (forall i, j :: 0 <= i < j < |files| ==> files[i].path != files[j].path)
  }

  /** as_posix. */
  function Posix(p: Path): Bytes {
    if p == [] then [] else if |p| == 1 then p[0] else p[0] + [SLASH] + Posix(p[1..])
  }

  // ----- Eight-byte lengths -----

  function Pow256(k: nat): nat {
    if k == 0 then 1 else 256 * Pow256(k - 1)
  }

  const MAX_LENGTH: nat := 0x1_0000_0000_0000_0000

  function BigEndian(n: nat, k: nat): (b: Bytes)
    ensures |b| == k
  {
    if k == 0 then [] else BigEndian(n / 256, k - 1) + [n % 256]
  }

  function Number(b: Bytes): nat {
    if b == [] then 0 else 256 * Number(b[..|b| - 1]) + b[|b| - 1]
  }

  lemma {:induction false} NumberRoundTrip(n: nat, k: nat)
    requires n < Pow256(k)
    ensures Number(BigEndian(n, k)) == n
  {
    if k > 0 {
      NumberRoundTrip(n / 256, k - 1);
      assert BigEndian(n, k)[..k - 1] == BigEndian(n / 256, k - 1);
    }
  }

  /** The most significant byte comes first. */
  lemma {:induction false} FirstByteWeighsMost(b: Bytes)
    requires b != []
    ensures Number(b) == b[0] as int * Pow256(|b| - 1) + Number(b[1..])
  {
    var last := |b| - 1;
    if last > 0 {
      FirstByteWeighsMost(b[..last]);
      assert b[..last][1..] == b[1..][..last - 1];
      assert Number(b[1..]) == Number(b[1..][..last - 1]) * 256 + b[1..][last - 1] as int;
    } else {
      assert b[..0] == [] && b[1..] == [];
    }
  }

  lemma EightBytes()
    ensures Pow256(8) == MAX_LENGTH
  {
    assert Pow256(2) == 0x1_0000;
    assert Pow256(4) == 0x1_0000_0000;
    assert Pow256(6) == 0x1_0000_0000_0000;
  }

  predicate Fits(f: File) {
    |Posix(f.path)| < MAX_LENGTH && |f.content| < MAX_LENGTH
  }

  // ----- The stream -----

  function Framed(b: Bytes): Bytes {
    BigEndian(|b|, 8) + b
  }

  function Stream(files: seq<File>): Bytes {
    if files == [] then []
    else
      var last := files[|files| - 1];
      Stream(files[..|files| - 1]) + Framed(Posix(last.path)) + Framed(last.content)
  }

  /** The sort by path; the order of paths is a parameter. */
  type PathOrder = (Path, Path) -> bool

  ghost predicate TotalOrder(le: PathOrder) {
    && (forall a, b :: le(a, b) || le(b, a))
    && (forall a, b :: le(a, b) && le(b, a) ==> a == b)
    && (forall a, b, c :: le(a, b) && le(b, c) ==> le(a, c))
  }

  function Insert(le: PathOrder, f: File, files: seq<File>): seq<File> {
    if files == [] then [f]
    else if le(f.path, files[0].path) then [f] + files
    else [files[0]] + Insert(le, f, files[1..])
  }

  function Sorted(le: PathOrder, files: seq<File>): seq<File> {
    if files == [] then [] else Insert(le, files[0], Sorted(le, files[1..]))
  }

  function Hashed(h: Bytes -> string, le: PathOrder, bundle: Node): Result<string, BundleError> {
    match bundle
    case Missing => Err(BundleMissing)
    case Regular(content) => Ok(h(content))
    case Directory(files) =>
      var sorted := Sorted(le, files);
      if sorted == [] then Err(BundleEmpty)
      else if forall i :: 0 <= i < |sorted| ==> Fits(sorted[i]) then Ok(h(Stream(sorted)))
      else Err(LengthOverflow)
  }

  // ----- The code -----

  /** A running digest: what has been fed to it so far. */
  class Digest {
    var fed: Bytes

    constructor ()
      ensures fed == []
    {
      fed := [];
    }

    method Update(b: Bytes)
      modifies this
      ensures fed == old(fed) + b
    {
      fed := fed + b;
    }
  }

  /** The digest of a regular file is that of its bytes; of a directory, that of the framed, sorted files. */
  method HashTemplateBundle(h: Bytes -> string, le: PathOrder, bundle: Node) returns (r: Result<string, BundleError>)
    ensures r == Hashed(h, le, bundle)
  {
    if bundle.Regular? {
      return Ok(h(bundle.content));
    }
    if !bundle.Directory? {
      return Err(BundleMissing);
    }
    var files := Sorted(le, bundle.files);
    if files == [] {
      return Err(BundleEmpty);
    }
    var digest := new Digest();
    var ok := Feed(digest, files);
    r := if ok then Ok(h(digest.fed)) else Err(LengthOverflow);
  }

  /** The loop over the sorted files; false is the overflow of an eight-byte length. */
  method Feed(digest: Digest, files: seq<File>) returns (ok: bool)
    requires digest.fed == []
    modifies digest
    ensures ok <==> forall i :: 0 <= i < |files| ==> Fits(files[i])
    ensures ok ==> digest.fed == Stream(files)
  {
    hide Stream, Posix, BigEndian;
    EmptyStream();
    for i := 0 to |files|
      invariant digest.fed == Stream(files[..i])
      invariant forall j :: 0 <= j < i ==> Fits(files[j])
    {
      var relative, content := Posix(files[i].path), files[i].content;
      if |relative| >= MAX_LENGTH || |content| >= MAX_LENGTH {
        assert !Fits(files[i]);
        return false;
      }
      digest.Update(BigEndian(|relative|, 8));
      digest.Update(relative);
      digest.Update(BigEndian(|content|, 8));
      digest.Update(content);
      StreamStep(files, i, digest.fed);
    }
    assert files[..|files|] == files;
    ok := true;
  }

  lemma StreamStep(files: seq<File>, i: nat, fed: Bytes)
    requires i < |files|
    requires var path, content := Posix(files[i].path), files[i].content;
      fed == Stream(files[..i]) + BigEndian(|path|, 8) + path + BigEndian(|content|, 8) + content
    ensures fed == Stream(files[..i + 1])
  {
    hide Stream, Posix, BigEndian;
    var f := files[i];
    StreamSnoc(files[..i], f);
    assert files[..i + 1] == files[..i] + [f];
    assert fed == Stream(files[..i]) + Framed(Posix(f.path)) + Framed(f.content);
  }

  lemma StreamSnoc(files: seq<File>, f: File)
    ensures Stream(files + [f]) == Stream(files) + Framed(Posix(f.path)) + Framed(f.content)
  {
    assert (files + [f])[..|files|] == files;
  }

  // ----- Decoding -----

  /** One framed field at the front of a stream, and the rest. */
  function Unframe(s: Bytes): (r: Option<(Bytes, Bytes)>)
    ensures r.Some? ==> |r.value.1| < |s|
  {
    if |s| < 8 then None
    else
      var n := Number(s[..8]);
      if 8 + n > |s| then None else Some((s[8..8 + n], s[8 + n..]))
  }

  /** The (path, content) pairs of a stream. */
  function Decode(s: Bytes): Option<seq<(Bytes, Bytes)>>
    decreases |s|
  {
    if s == [] then Some([])
    else
      var path := Unframe(s);
      if path.None? then None
      else
        var content := Unframe(path.value.1);
        if content.None? then None
        else
          var rest := Decode(content.value.1);
          if rest.None? then None else Some([(path.value.0, content.value.0)] + rest.value)
  }

  lemma UnframeFramed(b: Bytes, rest: Bytes)
    requires |b| < MAX_LENGTH
    ensures Unframe(Framed(b) + rest) == Some((b, rest))
  {
    hide BigEndian, Number, Pow256;
    EightBytes();
    NumberRoundTrip(|b|, 8);
    var s := Framed(b) + rest;
    assert s[..8] == BigEndian(|b|, 8);
    assert s[8..8 + |b|] == b && s[8 + |b|..] == rest;
  }

  function Pairs(files: seq<File>): seq<(Bytes, Bytes)> {
    seq(|files|, i requires 0 <= i < |files| => (Posix(files[i].path), files[i].content))
  }

  /** Seen from the front. */
  lemma {:induction false} StreamCons(files: seq<File>)
    requires files != []
    ensures Stream(files) == Framed(Posix(files[0].path)) + (Framed(files[0].content) + Stream(files[1..]))
  {
    hide Framed, Posix;
    var n := |files| - 1;
    if n > 0 {
      StreamCons(files[..n]);
      assert files[..n][1..] == files[1..][..n - 1];
    }
  }

  /** The stream decodes back to the list of (relative path, content) pairs. */
  lemma {:induction false} DecodeStream(files: seq<File>)
    requires forall i :: 0 <= i < |files| ==> Fits(files[i])
    ensures Decode(Stream(files)) == Some(Pairs(files))
  {
    hide Framed, Posix, Unframe, Stream;
    if files == [] {
      EmptyStream();
    } else {
      StreamCons(files);
      UnframeFramed(Posix(files[0].path), Framed(files[0].content) + Stream(files[1..]));
      UnframeFramed(files[0].content, Stream(files[1..]));
      NonEmptyStream(files);
      DecodeStream(files[1..]);
      assert Pairs(files) == [(Posix(files[0].path), files[0].content)] + Pairs(files[1..]);
    }
  }

  lemma EmptyStream()
    ensures Stream([]) == []
  {
  }

  lemma NonEmptyStream(files: seq<File>)
    requires files != []
    ensures Stream(files) != []
  {
    assert |Framed(files[|files| - 1].content)| >= 8;
  }

  // ----- Paths -----

  lemma {:induction false} PosixInjective(a: Path, b: Path)
    requires ValidPath(a) && ValidPath(b) && Posix(a) == Posix(b)
    ensures a == b
  {
    FirstPart(a);
    FirstPart(b);
    var m, n := |a[0]|, |b[0]|;
    assert m == n;
    assert a[0] == Posix(a)[..m] == b[0];
    if |a| > 1 && |b| > 1 {
      assert Posix(a[1..]) == Posix(a)[m + 1..] == Posix(b[1..]);
      PosixInjective(a[1..], b[1..]);
      assert a == [a[0]] + a[1..] && b == [b[0]] + b[1..];
    }
  }

  /** A path starts with its first part, ended by the end or by a slash. */
  lemma {:induction false} FirstPart(p: Path)
    requires ValidPath(p)
    ensures |p[0]| <= |Posix(p)| && Posix(p)[..|p[0]|] == p[0]
    ensures |p| == 1 <==> |Posix(p)| == |p[0]|
    ensures |p| > 1 ==> Posix(p)[|p[0]|] == SLASH && Posix(p)[|p[0]| + 1..] == Posix(p[1..])
    ensures SLASH !in p[0]
  {
    assert PlainPart(p[0]);
  }

  // ----- Sorting -----

  ghost predicate InOrder(le: PathOrder, files: seq<File>) {
    forall i, j :: 0 <= i < j < |files| ==> le(files[i].path, files[j].path)
  }

  lemma {:induction false} InsertMembers(le: PathOrder, f: File, files: seq<File>)
    ensures multiset(Insert(le, f, files)) == multiset(files) + multiset{f}
    ensures forall g :: g in Insert(le, f, files) ==> g == f || g in files
  {
    if files != [] {
      assert files == [files[0]] + files[1..];
      InsertMembers(le, f, files[1..]);
    }
  }

  lemma {:induction false} InsertSorts(le: PathOrder, f: File, files: seq<File>)
    requires TotalOrder(le) && InOrder(le, files)
    ensures InOrder(le, Insert(le, f, files))
  {
    if files != [] && !le(f.path, files[0].path) {
      InsertSorts(le, f, files[1..]);
      InsertMembers(le, f, files[1..]);
      var t := Insert(le, f, files[1..]);
      forall j | 0 <= j < |t| ensures le(files[0].path, t[j].path) {
        assert t[j] in t;
      }
    }
  }

  lemma {:induction false} SortedSorts(le: PathOrder, files: seq<File>)
    requires TotalOrder(le)
    ensures InOrder(le, Sorted(le, files)) && multiset(Sorted(le, files)) == multiset(files)
  {
    hide TotalOrder, Insert, InOrder;
    if files == [] {
      assert InOrder(le, []) by { NothingInOrder(le); }
    } else {
      SortedSorts(le, files[1..]);
      InsertSorts(le, files[0], Sorted(le, files[1..]));
      InsertMembers(le, files[0], Sorted(le, files[1..]));
      assert files == [files[0]] + files[1..];
    }
  }

  lemma NothingInOrder(le: PathOrder)
    ensures InOrder(le, [])
  {
  }

  /** One listing has one sorted form. */
  lemma {:induction false} OneOrder(le: PathOrder, a: seq<File>, b: seq<File>)
    requires TotalOrder(le) && InOrder(le, a) && InOrder(le, b) && multiset(a) == multiset(b)
    requires forall x, y :: x in a && y in a && x.path == y.path ==> x == y
    ensures a == b
  {
    hide TotalOrder, InOrder;
    assert |a| == |multiset(a)| == |multiset(b)| == |b|;
    if a != [] {
      SameMembers(a, b);
      assert a[0] in b;
      SameFirst(le, a, b);
      TailMultiset(a);
      TailMultiset(b);
      TailInOrder(le, a);
      TailInOrder(le, b);
      OneOrder(le, a[1..], b[1..]);
      assert a == [a[0]] + a[1..] && b == [b[0]] + b[1..];
    }
  }

  lemma TailMultiset(a: seq<File>)
    requires a != []
    ensures multiset(a[1..]) == multiset(a) - multiset{a[0]}
  {
    assert a == [a[0]] + a[1..];
  }

  lemma TailInOrder(le: PathOrder, a: seq<File>)
    requires InOrder(le, a) && a != []
    ensures InOrder(le, a[1..])
  {
  }

  lemma SameFirst(le: PathOrder, a: seq<File>, b: seq<File>)
    requires TotalOrder(le) && InOrder(le, a) && InOrder(le, b) && a != [] && b != []
    requires a[0] in b && b[0] in a
    requires forall x, y :: x in a && y in a && x.path == y.path ==> x == y
    ensures a[0] == b[0]
  {
    FirstIsLeast(le, a, b[0]);
    FirstIsLeast(le, b, a[0]);
  }

  lemma FirstIsLeast(le: PathOrder, a: seq<File>, f: File)
    requires TotalOrder(le) && InOrder(le, a) && f in a
    ensures le(a[0].path, f.path)
  {
  }

  // ----- What the digest determines -----

  lemma PairsDetermine(a: seq<File>, b: seq<File>)
    requires Pairs(a) == Pairs(b)
    requires forall f :: f in a || f in b ==> ValidPath(f.path)
    ensures a == b
  {
    assert |a| == |Pairs(a)| == |b|;
    forall i | 0 <= i < |a| ensures a[i] == b[i] {
      assert Pairs(a)[i] == Pairs(b)[i];
      PosixInjective(a[i].path, b[i].path);
    }
  }

  /**
   Two directories feed the hash the same bytes exactly when they hold the same files, however
   they were listed.
   */
  lemma {:induction false} StreamDeterminesBundle(le: PathOrder, a: seq<File>, b: seq<File>)
    requires TotalOrder(le) && Listing(a) && Listing(b)
    requires forall f :: f in a || f in b ==> Fits(f)
    ensures Stream(Sorted(le, a)) == Stream(Sorted(le, b)) <==> multiset(a) == multiset(b)
  {
    hide TotalOrder, Sorted, Stream, Fits, ValidPath, InOrder;
    var sa, sb := Sorted(le, a), Sorted(le, b);
    SortedSorts(le, a);
    SortedSorts(le, b);
    SameMembers(sa, a);
    SameMembers(sb, b);
    DecodeStream(sa);
    DecodeStream(sb);
    if Stream(sa) == Stream(sb) {
      PairsDetermine(sa, sb);
    }
    if multiset(a) == multiset(b) {
      OneOrder(le, sa, sb);
    }
  }

  lemma SameMembers(a: seq<File>, b: seq<File>)
    requires multiset(a) == multiset(b)
    ensures forall f :: f in a <==> f in b
  {
    forall f ensures f in a <==> f in b {
      assert f in multiset(a) <==> f in a;
      assert f in multiset(b) <==> f in b;
    }
  }

  /** Whether these two directories' streams are hashed without a collision. */
  ghost predicate NoCollision(h: Bytes -> string, le: PathOrder, a: seq<File>, b: seq<File>) {
    h(Stream(Sorted(le, a))) == h(Stream(Sorted(le, b))) ==> Stream(Sorted(le, a)) == Stream(Sorted(le, b))
  }

  /** Short of a hash collision, two directories get one digest exactly when they hold the same files. */
  lemma DigestDeterminesDirectory(h: Bytes -> string, le: PathOrder, a: seq<File>, b: seq<File>)
    requires TotalOrder(le) && Listing(a) && Listing(b) && NoCollision(h, le, a, b)
    requires Hashed(h, le, Directory(a)).Ok? && Hashed(h, le, Directory(b)).Ok?
    ensures Hashed(h, le, Directory(a)) == Hashed(h, le, Directory(b)) <==> multiset(a) == multiset(b)
  {
    hide TotalOrder, Sorted, Stream, Fits, ValidPath, InOrder;
    SortedSorts(le, a);
    SortedSorts(le, b);
    SameMembers(Sorted(le, a), a);
    SameMembers(Sorted(le, b), b);
    StreamDeterminesBundle(le, a, b);
  }

  /** The digest does not tell a directory from a regular file that holds the directory's stream. */
  lemma {:induction false} DigestIgnoresKind(h: Bytes -> string, le: PathOrder, files: seq<File>)
    requires Hashed(h, le, Directory(files)).Ok?
    ensures Hashed(h, le, Regular(Stream(Sorted(le, files)))) == Hashed(h, le, Directory(files))
  {
  }

  /** A directory is refused exactly when it is empty or some length does not fit in eight bytes. */
  lemma DirectoryRefused(h: Bytes -> string, le: PathOrder, files: seq<File>)
    requires TotalOrder(le)
    ensures Hashed(h, le, Directory(files)).Err? <==> files == [] || exists f :: f in files && !Fits(f)
  {
    hide TotalOrder, Sorted, Stream, Fits, InOrder;
    SortedSorts(le, files);
    SameMembers(Sorted(le, files), files);
    assert |Sorted(le, files)| == |multiset(Sorted(le, files))| == |files|;
  }
}
