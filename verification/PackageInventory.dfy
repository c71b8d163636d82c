/**
 The recursive walk over a package directory, with its running totals, and the
 verification of a reviewed file list against what the walk finds.
 */
module PackageInventory {
  import opened Prelude
  import opened JsonText
  import opened PackagePaths
  import opened PackageFiles

  /** A directory entry is a regular file, a directory, or something a package may not hold. */
  datatype Node = FileNode(bytes: nat, sha256: nat) | DirNode(entries: seq<Entry>) | OtherNode

  datatype Entry = Entry(name: Text, node: Node)

  function ChildPath(relative: Text, name: Text): Text {
    if relative == [] then name else relative + [SLASH] + name
  }

  /** The normalized path of an entry, or nothing when the walk refuses it. */
  function EntryPath(relative: Text, name: Text): Text {
    var r := PackageRelativePath(ChildPath(relative, name));
    if r.Ok? then r.value else []
  }

  // ----- What a whole directory holds -----

  function NodeFiles(path: Text, node: Node): seq<PackageFile>
    decreases node
  {
    match node
    case FileNode(bytes, sha256) => [PackageFile(path, bytes, sha256)]
    case DirNode(entries) => Listing(path, entries)
    case OtherNode => []
  }

  /** Every file below the directory, in the order of the walk. */
  function Listing(relative: Text, entries: seq<Entry>): seq<PackageFile>
    decreases entries
  {
    if entries == [] then []
    else NodeFiles(EntryPath(relative, entries[0].name), entries[0].node) + Listing(relative, entries[1..])
  }

  function NodeBytes(node: Node): nat
    decreases node
  {
    match node
    case FileNode(bytes, _) => bytes
    case DirNode(entries) => BytesIn(entries)
    case OtherNode => 0
  }

  function BytesIn(entries: seq<Entry>): nat
    decreases entries
  {
    if entries == [] then 0 else NodeBytes(entries[0].node) + BytesIn(entries[1..])
  }

  function NodeEntries(node: Node): nat
    decreases node
  {
    if node.DirNode? then EntriesIn(node.entries) else 0
  }

  /** The number of entries at every depth. */
  function EntriesIn(entries: seq<Entry>): nat
    decreases entries
  {
    if entries == [] then 0 else 1 + NodeEntries(entries[0].node) + EntriesIn(entries[1..])
  }

  predicate NodeClean(path: Text, node: Node, depth: nat)
    decreases node
  {
    match node
    case FileNode(_, _) => true
    case DirNode(entries) => depth < MAX_DEPTH && Clean(path, entries, depth + 1)
    case OtherNode => false
  }

  /** Names are package paths, nothing but files and directories, and nesting is within the limit. */
  predicate Clean(relative: Text, entries: seq<Entry>, depth: nat)
    decreases entries
  {
    entries != [] ==>
      && PackageRelativePath(ChildPath(relative, entries[0].name)).Ok?
      && NodeClean(EntryPath(relative, entries[0].name), entries[0].node, depth)
      && Clean(relative, entries[1..], depth)
  }

  /** The directory may be taken on top of what has been counted so far. */
  predicate Fits(relative: Text, entries: seq<Entry>, depth: nat, total: nat, count: nat) {
    Clean(relative, entries, depth) && total + BytesIn(entries) <= MAX_PACKAGE_BYTES && count + EntriesIn(entries) <= MAX_FILES
  }

  predicate EntryFits(relative: Text, entry: Entry, depth: nat, total: nat, count: nat) {
    && PackageRelativePath(ChildPath(relative, entry.name)).Ok?
    && NodeClean(EntryPath(relative, entry.name), entry.node, depth)
    && total + NodeBytes(entry.node) <= MAX_PACKAGE_BYTES && count + 1 + NodeEntries(entry.node) <= MAX_FILES
  }

  /** A directory is its first entry and the rest of it. */
  lemma FirstAndRest(relative: Text, entries: seq<Entry>, depth: nat, total: nat, count: nat)
    requires entries != []
    ensures var first, rest := entries[0], entries[1..];
      && Listing(relative, entries) == NodeFiles(EntryPath(relative, first.name), first.node) + Listing(relative, rest)
      && BytesIn(entries) == NodeBytes(first.node) + BytesIn(rest)
      && EntriesIn(entries) == 1 + NodeEntries(first.node) + EntriesIn(rest)
      && (Fits(relative, entries, depth, total, count) <==>
            EntryFits(relative, first, depth, total, count)
            && Fits(relative, rest, depth, total + NodeBytes(first.node), count + 1 + NodeEntries(first.node)))
  {
  }

  lemma NothingLeft(relative: Text, depth: nat, total: nat, count: nat)
    ensures Listing(relative, []) == [] && BytesIn([]) == 0 && EntriesIn([]) == 0
    ensures Fits(relative, [], depth, total, count) <==> total <= MAX_PACKAGE_BYTES && count <= MAX_FILES
  {
  }

  // ----- The walk -----

  class Inventory {
    var files: seq<PackageFile>
    var total: nat
    var count: nat

    predicate WithinLimits()
      reads this
    {
      total <= MAX_PACKAGE_BYTES && count <= MAX_FILES
    }

    constructor ()
      ensures files == [] && total == 0 && count == 0
    {
      files, total, count := [], 0, 0;
    }

    /** Takes one entry, and everything below it. */
    method Take(relative: Text, entry: Entry, depth: nat) returns (ok: bool)
      requires depth <= MAX_DEPTH && WithinLimits()
      modifies this
      ensures ok <==> EntryFits(relative, entry, depth, old(total), old(count))
      ensures ok ==> WithinLimits() && files == old(files) + NodeFiles(EntryPath(relative, entry.name), entry.node)
      ensures ok ==> total == old(total) + NodeBytes(entry.node) && count == old(count) + 1 + NodeEntries(entry.node)
      decreases entry
    {
      hide PackageRelativePath, Listing, BytesIn, EntriesIn, Clean;
      count := count + 1;
      if count > MAX_FILES {
        return false;
      }
      var r := PackageRelativePath(ChildPath(relative, entry.name));
      if r.Err? {
        return false;
      }
      match entry.node
      case DirNode(children) =>
        if depth + 1 > MAX_DEPTH {
          return false;
        }
        ok := Walk(r.value, children, depth + 1);
      case FileNode(bytes, sha256) =>
        total := total + bytes;
        if total > MAX_PACKAGE_BYTES {
          return false;
        }
        files := files + [PackageFile(r.value, bytes, sha256)];
        ok := true;
      case OtherNode =>
        ok := false;
    }

    /** Takes a directory; refuses exactly when a name, a kind, the depth, the count or the size does not fit. */
    method Walk(relative: Text, entries: seq<Entry>, depth: nat) returns (ok: bool)
      requires depth <= MAX_DEPTH && WithinLimits()
      modifies this
      ensures ok <==> Fits(relative, entries, depth, old(total), old(count))
      ensures ok ==> WithinLimits() && files == old(files) + Listing(relative, entries)
      ensures ok ==> total == old(total) + BytesIn(entries) && count == old(count) + EntriesIn(entries)
      decreases entries
    {
      hide Fits, EntryFits, EntryPath, Listing, NodeFiles, BytesIn, NodeBytes, EntriesIn, NodeEntries;
      var n := 0;
      assert entries[0..] == entries;
      while n < |entries|
        invariant n <= |entries|
        invariant WithinLimits()
        invariant Fits(relative, entries, depth, old(total), old(count)) <==> Fits(relative, entries[n..], depth, total, count)
        invariant files + Listing(relative, entries[n..]) == old(files) + Listing(relative, entries)
        invariant total + BytesIn(entries[n..]) == old(total) + BytesIn(entries)
        invariant count + EntriesIn(entries[n..]) == old(count) + EntriesIn(entries)
      {
        ghost var before, rest := files, entries[n..];
        assert rest[0] == entries[n] && rest[1..] == entries[n + 1..];
        FirstAndRest(relative, rest, depth, total, count);
        ok := Take(relative, entries[n], depth);
        if !ok {
          return;
        }
        assert files + Listing(relative, rest[1..]) == before + Listing(relative, rest);
        n := n + 1;
      }
      assert entries[n..] == [];
      NothingLeft(relative, depth, total, count);
      ok := true;
    }
  }

  // ----- What a real directory gives -----

  predicate RealName(name: Text) {
    PlainPart(name) && NoSlash(name)
  }

  /** A file system's names: no separator, not "." or "..", and different within a directory. */
  ghost predicate RealNode(node: Node)
    decreases node
  {
    node.DirNode? ==> RealEntries(node.entries)
  }

  ghost predicate RealEntries(entries: seq<Entry>)
    decreases entries
  {
    entries != [] ==>
      && RealName(entries[0].name) && RealNode(entries[0].node) && RealEntries(entries[1..])
      && forall i :: 1 <= i < |entries| ==> entries[i].name != entries[0].name
  }

  /** A relative directory path is the root or normal. */
  predicate IsDirectory(relative: Text) {
    relative == [] || Normal(relative)
  }

  /** The walk's normalization does not change a real name. */
  lemma RealNameIsKept(relative: Text, name: Text)
    requires IsDirectory(relative) && RealName(name) && PackageRelativePath(ChildPath(relative, name)).Ok?
    ensures EntryPath(relative, name) == ChildPath(relative, name) && Normal(ChildPath(relative, name))
  {
    hide Split;
    var path := ChildPath(relative, name);
    if relative != [] {
      NormalIsStripped(relative);
      KeptHasNoDots(relative + [SLASH]);
      assert path[0] == (relative + [SLASH])[0] && path[1] == (relative + [SLASH])[1];
    }
    assert StripDots(path) == path;
    assert path[|path| - 1] == name[|name| - 1];
  }

  lemma NormalIsNotRoot(path: Text)
    requires Normal(path)
    ensures path != []
  {
  }

  /** The path is the directory itself or lies below it. */
  predicate Below(path: Text, base: Text) {
    base <= path && (|path| > |base| ==> path[|base|] == SLASH)
  }

  lemma {:induction false} NodeFilesBelow(path: Text, node: Node, depth: nat, f: PackageFile)
    requires Normal(path) && NodeClean(path, node, depth) && RealNode(node) && f in NodeFiles(path, node)
    ensures Below(f.path, path) && Normal(f.path)
    decreases node, 0
  {
    hide Normal;
    if node.DirNode? {
      var name := ListingBelow(path, node.entries, depth + 1, f);
      NormalIsNotRoot(path);
      assert path + [SLASH] + name <= f.path;
      assert f.path[..|path|] == path;
    }
  }

  /** Every listed file lies below one of the directory's entries. */
  lemma {:induction false} ListingBelow(relative: Text, entries: seq<Entry>, depth: nat, f: PackageFile) returns (name: Text)
    requires IsDirectory(relative) && Clean(relative, entries, depth) && RealEntries(entries) && f in Listing(relative, entries)
    ensures Below(f.path, ChildPath(relative, name)) && Normal(f.path) && RealName(name)
    ensures exists i :: 0 <= i < |entries| && entries[i].name == name
    decreases entries, 1
  {
    hide Normal, PackageRelativePath, Below;
    RealNameIsKept(relative, entries[0].name);
    var path := EntryPath(relative, entries[0].name);
    if f in NodeFiles(path, entries[0].node) {
      NodeFilesBelow(path, entries[0].node, depth, f);
      name := entries[0].name;
    } else {
      name := ListingBelow(relative, entries[1..], depth, f);
      var i :| 0 <= i < |entries[1..]| && entries[1..][i].name == name;
      assert entries[i + 1].name == name;
    }
  }

  lemma NoLonger(prefix: Text, a: Text, b: Text, path: Text)
    requires NoSlash(b) && Below(path, prefix + a) && prefix + b <= path
    ensures |b| <= |a|
  {
    forall i | 0 <= i < |b| ensures path[|prefix| + i] == b[i] {
      assert (prefix + b)[|prefix| + i] == b[i];
    }
  }

  /** No path lies below two differently named entries of one directory. */
  lemma DifferentNamesApart(relative: Text, a: Text, b: Text, path: Text)
    requires NoSlash(a) && NoSlash(b) && Below(path, ChildPath(relative, a)) && Below(path, ChildPath(relative, b))
    ensures a == b
  {
    var prefix := if relative == [] then [] else relative + [SLASH];
    assert ChildPath(relative, a) == prefix + a && ChildPath(relative, b) == prefix + b;
    NoLonger(prefix, a, b, path);
    NoLonger(prefix, b, a, path);
    forall i | 0 <= i < |a| ensures a[i] == b[i] {
      assert (prefix + a)[|prefix| + i] == path[|prefix| + i] && (prefix + b)[|prefix| + i] == path[|prefix| + i];
    }
  }

  lemma {:induction false} NodePathsDistinct(path: Text, node: Node, depth: nat)
    requires Normal(path) && NodeClean(path, node, depth) && RealNode(node)
    ensures DistinctPaths(NodeFiles(path, node))
    decreases node, 0
  {
    hide Normal;
    if node.DirNode? {
      PathsDistinct(path, node.entries, depth + 1);
    }
  }

  /** A real directory's inventory has no path twice. */
  lemma {:induction false} PathsDistinct(relative: Text, entries: seq<Entry>, depth: nat)
    requires IsDirectory(relative) && Clean(relative, entries, depth) && RealEntries(entries)
    ensures DistinctPaths(Listing(relative, entries))
    decreases entries, 1
  {
    hide Normal, PackageRelativePath, Below;
    if entries != [] {
      var name := entries[0].name;
      RealNameIsKept(relative, name);
      var path := EntryPath(relative, name);
      var first, rest := NodeFiles(path, entries[0].node), Listing(relative, entries[1..]);
      NodePathsDistinct(path, entries[0].node, depth);
      PathsDistinct(relative, entries[1..], depth);
      forall i, j | 0 <= i < |first| && 0 <= j < |rest| ensures first[i].path != rest[j].path {
        NodeFilesBelow(path, entries[0].node, depth, first[i]);
        var other := ListingBelow(relative, entries[1..], depth, rest[j]);
        var k :| 0 <= k < |entries[1..]| && entries[1..][k].name == other;
        assert entries[k + 1].name == other;
        if first[i].path == rest[j].path {
          DifferentNamesApart(relative, name, other, first[i].path);
        }
      }
      AppendDistinct(first, rest);
    }
  }

  lemma AppendDistinct(a: seq<PackageFile>, b: seq<PackageFile>)
    requires DistinctPaths(a) && DistinctPaths(b)
    requires forall i, j :: 0 <= i < |a| && 0 <= j < |b| ==> a[i].path != b[j].path
    ensures DistinctPaths(a + b)
  {
  }

  // ----- Verification of a reviewed list -----

  /** The inventory of the directory, sorted and compared with the sorted reviewed list. */
  method VerifyPackageFiles(entries: seq<Entry>, files: seq<PackageFile>) returns (ok: bool)
    requires RealEntries(entries)
    ensures ok <==> Fits([], entries, 0, 0, 0) && multiset(files) == multiset(Listing([], entries))
  {
    var inventory := new Inventory();
    ok := inventory.Walk([], entries, 0);
    if ok {
      assert [] + Listing([], entries) == Listing([], entries);
      PathsDistinct([], entries, 0);
      AcceptsExactlyPermutations(inventory.files, files);
      ok := SameFiles(Sort(inventory.files), files);
    }
  }
}
