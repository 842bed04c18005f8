/** The byte stream that commits a set of source files: sorted, length-framed
    paths and contents. A path is its UTF-8 bytes, whose lexicographic order is
    the code-point order of the sort. */
module SourceDigest {
  import opened Base

  datatype File = File(path: Bytes, content: Bytes)
  datatype Stream = Fed(bytes: Bytes) | DuplicatePath | TooLong

  predicate Less(a: Bytes, b: Bytes) {
    b != [] && (a == [] || a[0] < b[0] || (a[0] == b[0] && Less(a[1..], b[1..])))
  }

  lemma {:induction false} LessTotal(a: Bytes, b: Bytes)
    ensures Less(a, b) || a == b || Less(b, a)
  {
    if a != [] && b != [] && a[0] == b[0] {
      LessTotal(a[1..], b[1..]);
      assert a == [a[0]] + a[1..] && b == [b[0]] + b[1..];
    }
  }

  lemma {:induction false} LessAsymmetric(a: Bytes, b: Bytes)
    requires Less(a, b)
    ensures a != b && !Less(b, a)
  {
    if a != [] && a[0] == b[0] { LessAsymmetric(a[1..], b[1..]); }
  }

  lemma {:induction false} LessTransitive(a: Bytes, b: Bytes, c: Bytes)
    requires Less(a, b) && Less(b, c)
    ensures Less(a, c)
  {
    if a != [] && a[0] == b[0] && b[0] == c[0] { LessTransitive(a[1..], b[1..], c[1..]); }
  }

  /** Stable insertion by path. */
  function Insert(file: File, sorted: seq<File>): (r: seq<File>)
    ensures multiset(r) == multiset{file} + multiset(sorted)
  {
    if sorted == [] || !Less(sorted[0].path, file.path) then [file] + sorted
    else
      assert sorted == [sorted[0]] + sorted[1..];
      [sorted[0]] + Insert(file, sorted[1..])
  }

  function Sorted(files: seq<File>): (r: seq<File>)
    ensures multiset(r) == multiset(files)
  {
    if files == [] then [] else
      assert files == [files[0]] + files[1..];
      Insert(files[0], Sorted(files[1..]))
  }

  /** Paths never decrease. */
  predicate Ordered(files: seq<File>) {
    |files| >= 2 ==> !Less(files[1].path, files[0].path) && Ordered(files[1..])
  }

  /** Paths strictly increase. */
  predicate Increasing(files: seq<File>) {
    |files| >= 2 ==> Less(files[0].path, files[1].path) && Increasing(files[1..])
  }

  lemma {:induction false} InsertOrdered(file: File, sorted: seq<File>)
    requires Ordered(sorted)
    ensures Ordered(Insert(file, sorted))
  {
    if sorted != [] && Less(sorted[0].path, file.path) {
      InsertOrdered(file, sorted[1..]);
      LessAsymmetric(sorted[0].path, file.path);
      var rest := Insert(file, sorted[1..]);
      assert Insert(file, sorted)[1..] == rest;
      assert rest[0] == file || (|sorted| >= 2 && rest[0] == sorted[1]);
    } else {
      assert ([file] + sorted)[1..] == sorted;
    }
  }

  lemma {:induction false} SortedOrdered(files: seq<File>)
    ensures Ordered(Sorted(files))
  {
    if files != [] {
      SortedOrdered(files[1..]);
      InsertOrdered(files[0], Sorted(files[1..]));
    }
  }

  /** In an increasing list every later path is above the first one. */
  lemma {:induction false} HeadIsLeast(files: seq<File>, f: File)
    requires files != [] && Increasing(files) && f in files
    ensures f == files[0] || Less(files[0].path, f.path)
  {
    if f != files[0] {
      assert f in files[1..];
      HeadIsLeast(files[1..], f);
      if f != files[1] { LessTransitive(files[0].path, files[1].path, f.path); }
    }
  }

  /** An increasing list is determined by its elements. */
  lemma {:induction false} IncreasingUnique(a: seq<File>, b: seq<File>)
    requires Increasing(a) && Increasing(b)
    requires forall f :: f in a <==> f in b
    ensures a == b
  {
    assert (a == [] || a[0] in a) && (b == [] || b[0] in b);
    if a != [] {
      HeadIsLeast(a, b[0]);
      HeadIsLeast(b, a[0]);
      if a[0] != b[0] { LessAsymmetric(a[0].path, b[0].path); }
      forall f ensures f in a[1..] <==> f in b[1..] {
        assert a == [a[0]] + a[1..] && b == [b[0]] + b[1..];
        if f in a[1..] { TailAbove(a, f); assert f in a; }
        if f in b[1..] { TailAbove(b, f); assert f in b; }
      }
      IncreasingUnique(a[1..], b[1..]);
    }
  }

  lemma TailAbove(files: seq<File>, f: File)
    requires files != [] && Increasing(files) && f in files[1..]
    ensures f != files[0]
  {
    HeadIsLeast(files[1..], f);
    if f != files[1] { LessTransitive(files[0].path, files[1].path, f.path); }
    LessAsymmetric(files[0].path, f.path);
  }

  predicate Fits(file: File) {
    |file.path| < U32_LIMIT && |file.content| < U64_LIMIT
  }

  function Frame(file: File): Bytes {
    Framed(file.path, 4) + Framed(file.content, 8)
  }

  function Frames(files: seq<File>): Bytes {
    if files == [] then [] else Frame(files[0]) + Frames(files[1..])
  }

  /** A frame is self-delimiting. */
  lemma FrameInjective(a: File, x: Bytes, b: File, y: Bytes)
    requires Fits(a) && Fits(b) && Frame(a) + x == Frame(b) + y
    ensures a == b && x == y
  {
    hide Framed, Pow256;
    PowersOf256();
    var restA := Framed(a.content, 8) + x;
    var restB := Framed(b.content, 8) + y;
    assert Frame(a) + x == Framed(a.path, 4) + restA;
    assert Frame(b) + y == Framed(b.path, 4) + restB;
    FramedInjective(a.path, restA, b.path, restB, 4);
    FramedInjective(a.content, x, b.content, y, 8);
  }

  lemma {:induction false} FramesInjective(a: seq<File>, b: seq<File>)
    requires forall f :: f in a || f in b ==> Fits(f)
    requires Frames(a) == Frames(b)
    ensures a == b
  {
    if a != [] && b != [] {
      assert a[0] in a && b[0] in b;
      FrameInjective(a[0], Frames(a[1..]), b[0], Frames(b[1..]));
      FramesInjective(a[1..], b[1..]);
    }
  }

  /** The bytes fed to the hash, or the refusal of the first offending file of the
      sorted list. */
  function StreamFrom(fed: Bytes, previous: Option<Bytes>, sorted: seq<File>): Stream
    decreases |sorted|
  {
    if sorted == [] then Fed(fed)
    else if previous == Some(sorted[0].path) then DuplicatePath
    else if !Fits(sorted[0]) then TooLong
    else StreamFrom(fed + Frame(sorted[0]), Some(sorted[0].path), sorted[1..])
  }

  function DigestStream(domain: Bytes, files: seq<File>): Stream {
    StreamFrom(domain + [0], None, Sorted(files))
  }

  method DigestFiles(domain: Bytes, files: seq<File>) returns (stream: Stream)
    ensures stream == DigestStream(domain, files)
  {
    var fed := domain + [0];
    var previous: Option<Bytes> := None;
    var sorted := Sorted(files);
    for i := 0 to |sorted|
      invariant StreamFrom(fed, previous, sorted[i..]) == StreamFrom(domain + [0], None, sorted)
    {
      assert sorted[i..][0] == sorted[i] && sorted[i..][1..] == sorted[i + 1..];
      var file := sorted[i];
      if previous == Some(file.path) { return DuplicatePath; }
      previous := Some(file.path);
      if !Fits(file) { return TooLong; }
      ghost var before := fed;
      fed := fed + BigEndian(|file.path|, 4);
      fed := fed + file.path;
      fed := fed + BigEndian(|file.content|, 8);
      fed := fed + file.content;
      assert fed == before + Frame(file);
    }
    return Fed(fed);
  }

  /** No path occurs twice, and every length fits its field. */
  ghost predicate Accepted(files: multiset<File>) {
    && (forall f, g :: f in files && g in files && f.path == g.path ==> f == g && files[f] == 1)
    && (forall f :: f in files ==> Fits(f))
  }

  /** On a sorted list the adjacent comparison sees every duplicate. */
  lemma {:induction false} StreamOfSorted(fed: Bytes, previous: Option<Bytes>, sorted: seq<File>)
    requires Ordered(sorted)
    requires previous.Some? && sorted != [] ==> !Less(sorted[0].path, previous.value)
    ensures StreamFrom(fed, previous, sorted).Fed? <==>
              Increasing(sorted) && (forall f :: f in sorted ==> Fits(f))
              && (previous.Some? && sorted != [] ==> Less(previous.value, sorted[0].path))
    decreases |sorted|
  {
    hide Less, Frame, Fits;
    if sorted != [] {
      var head := sorted[0];
      StreamOfSorted(fed + Frame(head), Some(head.path), sorted[1..]);
      assert sorted == [head] + sorted[1..];
      if previous.Some? {
        LessTotal(previous.value, head.path);
        if Less(previous.value, head.path) { LessAsymmetric(previous.value, head.path); }
      }
    }
  }

  lemma {:induction false} StreamIsFrames(fed: Bytes, previous: Option<Bytes>, sorted: seq<File>)
    requires StreamFrom(fed, previous, sorted).Fed?
    ensures StreamFrom(fed, previous, sorted) == Fed(fed + Frames(sorted))
    decreases |sorted|
  {
    if sorted == [] {
      assert fed + Frames(sorted) == fed;
    } else {
      StreamIsFrames(fed + Frame(sorted[0]), Some(sorted[0].path), sorted[1..]);
      assert fed + Frame(sorted[0]) + Frames(sorted[1..]) == fed + Frames(sorted);
    }
  }

  /** Adjacent comparison of a sorted list finds a duplicate path if there is one
      anywhere in the list. */
  lemma {:induction false} IncreasingIffUnique(files: seq<File>)
    requires Ordered(files)
    ensures Increasing(files) <==>
              forall f, g :: f in multiset(files) && g in multiset(files) && f.path == g.path ==>
                  f == g && multiset(files)[f] == 1
  {
    if |files| >= 2 {
      var m, tail := multiset(files), multiset(files[1..]);
      assert files == [files[0]] + files[1..] && m == multiset{files[0]} + tail;
      IncreasingIffUnique(files[1..]);
      assert files[0] in m && files[1] in m;
      if Increasing(files) {
        forall f, g | f in m && g in m && f.path == g.path ensures f == g && m[f] == 1 {
          HeadAlone(files, f);
          HeadAlone(files, g);
        }
      } else if Increasing(files[1..]) {
        LessTotal(files[0].path, files[1].path);
        if files[0] == files[1] { assert files[1] in tail && m[files[0]] >= 2; }
      } else {
        var f, g :| f in tail && g in tail && f.path == g.path && !(f == g && tail[f] == 1);
        assert f in m && g in m && m[f] >= tail[f];
      }
    } else if |files| == 1 {
      assert files == [files[0]];
    }
  }

  /** In an increasing list the first path occurs nowhere else. */
  lemma HeadAlone(files: seq<File>, f: File)
    requires files != [] && Increasing(files) && f in files
    ensures f in files[1..] ==> f.path != files[0].path
    ensures f != files[0] ==> f.path != files[0].path
  {
    if f in files[1..] { TailAbove(files, f); }
    HeadIsLeast(files, f);
    if f != files[0] { LessAsymmetric(files[0].path, f.path); }
  }

  /** A stream is produced exactly when no path is repeated and every length fits. */
  lemma StreamProduced(domain: Bytes, files: seq<File>)
    ensures DigestStream(domain, files).Fed? <==> Accepted(multiset(files))
    ensures DigestStream(domain, files).Fed? ==>
              Increasing(Sorted(files)) && DigestStream(domain, files) == Fed(domain + [0] + Frames(Sorted(files)))
  {
    var sorted := Sorted(files);
    SortedOrdered(files);
    StreamOfSorted(domain + [0], None, sorted);
    IncreasingIffUnique(sorted);
    assert forall f :: f in sorted <==> f in multiset(sorted);
    if DigestStream(domain, files).Fed? { StreamIsFrames(domain + [0], None, sorted); }
  }

  /** The committed stream depends only on the path-to-content map, and tells any
      two such maps apart. */
  lemma StreamIffSameMap(domain: Bytes, a: seq<File>, b: seq<File>)
    requires DigestStream(domain, a).Fed? && DigestStream(domain, b).Fed?
    ensures DigestStream(domain, a) == DigestStream(domain, b) <==> (forall f :: f in a <==> f in b)
  {
    StreamProduced(domain, a);
    StreamProduced(domain, b);
    var x, y := Sorted(a), Sorted(b);
    assert forall f :: f in a <==> f in multiset(a);
    assert forall f :: f in b <==> f in multiset(b);
    assert forall f :: f in x <==> f in multiset(x);
    assert forall f :: f in y <==> f in multiset(y);
    if forall f :: f in a <==> f in b {
      IncreasingUnique(x, y);
    }
    if DigestStream(domain, a) == DigestStream(domain, b) {
      ConcatInjective(domain + [0], Frames(x), domain + [0], Frames(y));
      FramesInjective(x, y);
    }
  }
}
