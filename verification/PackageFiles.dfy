/**
 The inventory of a package directory and its comparison with a reviewed list.
 The walk keeps running totals; the comparison sorts both lists by path.
 */
module PackageFiles {
  import opened Prelude
  import opened JsonText
  import opened PackagePaths

  const MAX_FILES: nat := 10_000
  const MAX_PACKAGE_BYTES: nat := 64 * 1024 * 1024
  const MAX_DEPTH: nat := 64

  datatype PackageFile = PackageFile(path: Text, bytes: nat, sha256: nat)

  // ----- The order of paths -----

  /** The order of strings by code units. */
  predicate Less(a: Text, b: Text) {
    if b == [] then false
    else if a == [] then true
    else if a[0] != b[0] then a[0] < b[0]
    else Less(a[1..], b[1..])
  }

  lemma {:induction false} LessTotal(a: Text, b: Text)
    ensures Less(a, b) || a == b || Less(b, a)
    ensures !(Less(a, b) && Less(b, a)) && !Less(a, a)
  {
    if a != [] && b != [] && a[0] == b[0] {
      LessTotal(a[1..], b[1..]);
      assert a == [a[0]] + a[1..] && b == [b[0]] + b[1..];
    }
    if a != [] {
      LessTotal(a[1..], a[1..]);
    }
  }

  lemma {:induction false} LessTransitive(a: Text, b: Text, c: Text)
    requires Less(a, b) && Less(b, c)
    ensures Less(a, c)
  {
    if a != [] && a[0] == b[0] && b[0] == c[0] {
      LessTransitive(a[1..], b[1..], c[1..]);
    }
  }

  /** The texts agree up to place `i`, where the first one ends or has the lesser unit. */
  predicate BeforeAt(a: Text, b: Text, i: nat) {
    i <= |a| && i < |b| && a[..i] == b[..i] && (i == |a| || a[i] < b[i])
  }

  lemma {:induction false} LessHasPlace(a: Text, b: Text) returns (i: nat)
    requires Less(a, b)
    ensures BeforeAt(a, b, i)
  {
    if a == [] || a[0] != b[0] {
      i := 0;
    } else {
      var j := LessHasPlace(a[1..], b[1..]);
      i := j + 1;
      assert a[..i] == [a[0]] + a[1..][..j] && b[..i] == [b[0]] + b[1..][..j];
    }
  }

  lemma {:induction false} PlaceMeansLess(a: Text, b: Text, i: nat)
    requires BeforeAt(a, b, i)
    ensures Less(a, b)
    decreases i
  {
    if i > 0 {
      assert a[0] == a[..i][0] && b[0] == b[..i][0];
      assert a[1..][..i - 1] == a[..i][1..] && b[1..][..i - 1] == b[..i][1..];
      PlaceMeansLess(a[1..], b[1..], i - 1);
    }
  }

  /** The order is that of the first place where the texts differ or the first one ends. */
  lemma LessExactly(a: Text, b: Text)
    ensures Less(a, b) <==> exists i: nat :: BeforeAt(a, b, i)
  {
    hide Less;
    if Less(a, b) { var i := LessHasPlace(a, b); }
    forall i: nat | BeforeAt(a, b, i) ensures Less(a, b) { PlaceMeansLess(a, b, i); }
  }

  // ----- Sorting -----

  /** No file comes after one with a greater path. */
  ghost predicate Ordered(files: seq<PackageFile>) {
    forall i, j :: 0 <= i < j < |files| ==> !Less(files[j].path, files[i].path)
  }

  ghost predicate DistinctPaths(files: seq<PackageFile>) {
    forall i, j :: 0 <= i < j < |files| ==> files[i].path != files[j].path
  }

  /** Files with equal paths keep their order. */
  function Insert(file: PackageFile, sorted: seq<PackageFile>): seq<PackageFile> {
    if sorted == [] then [file]
    else if Less(sorted[0].path, file.path) then [sorted[0]] + Insert(file, sorted[1..])
    else [file] + sorted
  }

  /** The stable sort by path. */
  function Sort(files: seq<PackageFile>): seq<PackageFile> {
    if files == [] then [] else Insert(files[0], Sort(files[1..]))
  }

  lemma {:induction false} InsertKeeps(file: PackageFile, sorted: seq<PackageFile>)
    ensures multiset(Insert(file, sorted)) == multiset{file} + multiset(sorted)
    ensures Ordered(sorted) ==> Ordered(Insert(file, sorted))
  {
    if sorted == [] {
    } else {
      assert sorted == [sorted[0]] + sorted[1..];
      if Less(sorted[0].path, file.path) {
        InsertKeeps(file, sorted[1..]);
        if Ordered(sorted) { InsertOrdered(file, sorted); }
      } else {
        assert multiset([file] + sorted) == multiset{file} + multiset(sorted);
        if Ordered(sorted) { PrependOrdered(file, sorted); }
      }
    }
  }

  lemma PrependOrdered(file: PackageFile, sorted: seq<PackageFile>)
    requires Ordered(sorted) && sorted != [] && !Less(sorted[0].path, file.path)
    ensures Ordered([file] + sorted)
  {
    forall j | 0 <= j < |sorted| ensures !Less(sorted[j].path, file.path) {
      if Less(sorted[j].path, file.path) && j > 0 {
        assert !Less(sorted[j].path, sorted[0].path);
        LessTotal(sorted[0].path, sorted[j].path);
        if Less(sorted[0].path, sorted[j].path) { LessTransitive(sorted[0].path, sorted[j].path, file.path); }
      }
    }
  }

  lemma InsertOrdered(file: PackageFile, sorted: seq<PackageFile>)
    requires Ordered(sorted) && sorted != [] && Less(sorted[0].path, file.path)
    requires Ordered(Insert(file, sorted[1..])) && multiset(Insert(file, sorted[1..])) == multiset{file} + multiset(sorted[1..])
    ensures Ordered([sorted[0]] + Insert(file, sorted[1..]))
  {
    var rest := Insert(file, sorted[1..]);
    forall j | 0 <= j < |rest| ensures !Less(rest[j].path, sorted[0].path) {
      assert rest[j] in multiset(rest);
      if rest[j] == file {
        LessTotal(file.path, sorted[0].path);
      } else {
        assert rest[j] in multiset(sorted[1..]);
        var k :| 0 <= k < |sorted[1..]| && sorted[1..][k] == rest[j];
        assert sorted[k + 1] == rest[j];
      }
    }
  }

  lemma {:induction false} SortSorts(files: seq<PackageFile>)
    ensures Ordered(Sort(files)) && multiset(Sort(files)) == multiset(files) && |Sort(files)| == |files|
  {
    if files != [] {
      SortSorts(files[1..]);
      InsertKeeps(files[0], Sort(files[1..]));
      assert files == [files[0]] + files[1..];
    }
    assert |multiset(Sort(files))| == |Sort(files)| && |multiset(files)| == |files|;
  }

  /** Two orderings of the same files are the same when their paths are distinct. */
  lemma {:induction false} SortedOrderIsUnique(a: seq<PackageFile>, b: seq<PackageFile>)
    requires Ordered(a) && Ordered(b) && DistinctPaths(a) && multiset(a) == multiset(b)
    ensures a == b
  {
    if a == [] {
      assert |multiset(b)| == 0;
    } else {
      assert a[0] in multiset(a);
      assert |multiset(a)| == |a| && |multiset(b)| == |b|;
      FirstIsLeast(a, b);
      assert a == [a[0]] + a[1..] && b == [b[0]] + b[1..];
      assert multiset(a[1..]) == multiset(a) - multiset{a[0]};
      assert multiset(b[1..]) == multiset(b) - multiset{b[0]};
      SortedOrderIsUnique(a[1..], b[1..]);
    }
  }

  lemma FirstIsLeast(a: seq<PackageFile>, b: seq<PackageFile>)
    requires Ordered(a) && Ordered(b) && DistinctPaths(a) && multiset(a) == multiset(b) && a != [] && b != []
    ensures a[0] == b[0]
  {
    assert b[0] in multiset(b) && a[0] in multiset(a);
    assert b[0] in multiset(a) && a[0] in multiset(b);
    var i :| 0 <= i < |a| && a[i] == b[0];
    var j :| 0 <= j < |b| && b[j] == a[0];
    LessTotal(a[0].path, b[0].path);
  }

  // ----- Comparing with the reviewed list -----

  /** The directory's sorted inventory is compared with the sorted reviewed list, file by file. */
  predicate SameFiles(actual: seq<PackageFile>, files: seq<PackageFile>) {
    var expected := Sort(files);
    |actual| == |expected| && forall i :: 0 <= i < |actual| ==> actual[i] == expected[i]
  }

  /** The comparison accepts exactly the permutations of the inventory. */
  lemma AcceptsExactlyPermutations(found: seq<PackageFile>, files: seq<PackageFile>)
    requires DistinctPaths(found)
    ensures SameFiles(Sort(found), files) <==> multiset(files) == multiset(found)
  {
    SortSorts(found);
    SortSorts(files);
    if multiset(files) == multiset(found) {
      SortKeepsDistinct(found);
      SortedOrderIsUnique(Sort(found), Sort(files));
    }
    if SameFiles(Sort(found), files) {
      assert Sort(found) == Sort(files);
    }
  }

  predicate InPaths(files: seq<PackageFile>, path: Text) {
    exists i :: 0 <= i < |files| && files[i].path == path
  }

  lemma {:induction false} SortKeepsDistinct(files: seq<PackageFile>)
    requires DistinctPaths(files)
    ensures DistinctPaths(Sort(files))
  {
    if files != [] {
      SortKeepsDistinct(files[1..]);
      SortSorts(files[1..]);
      var sorted := Sort(files[1..]);
      forall k | 0 <= k < |sorted| ensures sorted[k].path != files[0].path {
        assert sorted[k] in multiset(sorted);
        var i :| 0 <= i < |files[1..]| && files[1..][i] == sorted[k];
        assert files[i + 1] == sorted[k];
      }
      InsertKeepsDistinct(files[0], sorted);
    }
  }

  lemma {:induction false} InsertKeepsDistinct(file: PackageFile, sorted: seq<PackageFile>)
    requires DistinctPaths(sorted) && !InPaths(sorted, file.path)
    ensures DistinctPaths(Insert(file, sorted))
    ensures forall k :: 0 <= k < |Insert(file, sorted)| ==> Insert(file, sorted)[k] == file || Insert(file, sorted)[k] in sorted
  {
    if sorted != [] && Less(sorted[0].path, file.path) {
      var rest := sorted[1..];
      forall i | 0 <= i < |rest| ensures rest[i].path != file.path {
        assert sorted[i + 1] == rest[i];
      }
      InsertKeepsDistinct(file, rest);
      forall k | 0 <= k < |Insert(file, rest)| ensures Insert(file, rest)[k].path != sorted[0].path {
        if Insert(file, rest)[k] != file {
          var i :| 0 <= i < |rest| && rest[i] == Insert(file, rest)[k];
          assert sorted[i + 1] == rest[i];
        }
      }
    }
  }
}
