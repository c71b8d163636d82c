/**
 The package directory as a tree that is walked down by names: which trees the
 inventory takes, which files it lists for them, and what it counts.
 */
module PackageTree {
  import opened Prelude
  import opened JsonText
  import opened PackagePaths
  import opened PackageFiles
  import opened PackageInventory

  /** The node that a list of names leads to, from the directory down. */
  function NodeAt(entries: seq<Entry>, names: seq<Text>): Option<Node>
    decreases |names|, |entries|
  {
    if names == [] || entries == [] then None
    else if entries[0].name != names[0] then NodeAt(entries[1..], names)
    else if |names| == 1 then Some(entries[0].node)
    else if entries[0].node.DirNode? then NodeAt(entries[0].node.entries, names[1..])
    else None
  }

  /** The names joined below a directory. */
  function PathOf(relative: Text, names: seq<Text>): Text
    decreases |names|
  {
    if names == [] then relative else PathOf(ChildPath(relative, names[0]), names[1..])
  }

  lemma PathOfOne(relative: Text, name: Text)
    ensures PathOf(relative, [name]) == ChildPath(relative, name)
  {
    assert [name][1..] == [];
    assert PathOf(ChildPath(relative, name), []) == ChildPath(relative, name);
  }

  /** The names lead to an entry of the directory first. */
  lemma {:induction false} NodeIsBelowAnEntry(entries: seq<Entry>, names: seq<Text>)
    requires NodeAt(entries, names).Some?
    ensures names != [] && exists i :: 0 <= i < |entries| && entries[i].name == names[0]
  {
    if entries[0].name != names[0] {
      NodeIsBelowAnEntry(entries[1..], names);
      var i :| 0 <= i < |entries[1..]| && entries[1..][i].name == names[0];
      assert entries[i + 1].name == names[0];
    }
  }

  /** A directory with its first entry set apart. */
  lemma NodeAtFirst(entries: seq<Entry>, names: seq<Text>)
    requires RealEntries(entries) && entries != []
    ensures NodeAt(entries, [entries[0].name]) == Some(entries[0].node)
    ensures entries[0].node.DirNode? && names != [] ==>
      NodeAt(entries, [entries[0].name] + names) == NodeAt(entries[0].node.entries, names)
    ensures NodeAt(entries[1..], names).Some? ==> NodeAt(entries, names) == NodeAt(entries[1..], names)
  {
    assert ([entries[0].name] + names)[1..] == names;
    if NodeAt(entries[1..], names).Some? {
      NodeIsBelowAnEntry(entries[1..], names);
      var i :| 0 <= i < |entries[1..]| && entries[1..][i].name == names[0];
      assert entries[i + 1].name == names[0];
    }
  }

  lemma RealRest(entries: seq<Entry>)
    requires RealEntries(entries) && entries != []
    ensures RealName(entries[0].name) && RealEntries(entries[1..]) && (entries[0].node.DirNode? ==> RealEntries(entries[0].node.entries))
  {
  }

  /** A real name is accepted below a directory exactly when the path is normal. */
  lemma NameAccepted(relative: Text, name: Text)
    requires IsDirectory(relative) && RealName(name)
    ensures PackageRelativePath(ChildPath(relative, name)).Ok? <==> Normal(ChildPath(relative, name))
    ensures Normal(ChildPath(relative, name)) ==> EntryPath(relative, name) == ChildPath(relative, name)
  {
    hide Normal;
    if Normal(ChildPath(relative, name)) {
      NormalIsStripped(ChildPath(relative, name));
    }
    if PackageRelativePath(ChildPath(relative, name)).Ok? {
      RealNameIsKept(relative, name);
    }
  }

  // ----- Which trees are taken -----

  /** Allowed where it stands: a normal path, a file or a directory, and a directory at most 64 levels deep. */
  ghost predicate Allowed(relative: Text, entries: seq<Entry>, depth: nat, names: seq<Text>) {
    NodeAt(entries, names).Some? ==>
      && Normal(PathOf(relative, names)) && !NodeAt(entries, names).value.OtherNode?
      && (NodeAt(entries, names).value.DirNode? ==> depth + |names| <= 64)
  }

  lemma {:induction false} CleanAllows(relative: Text, entries: seq<Entry>, depth: nat, names: seq<Text>)
    requires IsDirectory(relative) && RealEntries(entries) && Clean(relative, entries, depth)
    ensures Allowed(relative, entries, depth, names)
    decreases |names|, |entries|
  {
    hide Normal, PackageRelativePath, EntryPath, ChildPath, RealEntries;
    if names != [] && entries != [] {
      RealRest(entries);
      var name, node := entries[0].name, entries[0].node;
      NameAccepted(relative, name);
      if name != names[0] {
        CleanAllows(relative, entries[1..], depth, names);
      } else if |names| == 1 {
        assert names == [name];
        PathOfOne(relative, name);
      } else if node.DirNode? {
        CleanAllows(ChildPath(relative, name), node.entries, depth + 1, names[1..]);
      }
    }
  }

  lemma {:induction false} AllowedIsClean(relative: Text, entries: seq<Entry>, depth: nat)
    requires IsDirectory(relative) && RealEntries(entries)
    requires forall names :: Allowed(relative, entries, depth, names)
    ensures Clean(relative, entries, depth)
    decreases entries
  {
    hide Normal, PackageRelativePath, EntryPath, ChildPath, RealEntries, Allowed, NodeAt;
    if entries != [] {
      RealRest(entries);
      var name, node := entries[0].name, entries[0].node;
      NameAccepted(relative, name);
      FirstIsAllowed(relative, entries, depth);
      if node.DirNode? {
        var path, below, deeper := ChildPath(relative, name), node.entries, depth + 1;
        forall names ensures Allowed(path, below, deeper, names) {
          ChildIsAllowed(relative, entries, depth, names);
        }
        AllowedIsClean(path, below, deeper);
      }
      forall names ensures Allowed(relative, entries[1..], depth, names) {
        RestIsAllowed(relative, entries, depth, names);
      }
      AllowedIsClean(relative, entries[1..], depth);
    }
  }

  lemma FirstIsAllowed(relative: Text, entries: seq<Entry>, depth: nat)
    requires RealEntries(entries) && entries != [] && Allowed(relative, entries, depth, [entries[0].name])
    ensures Normal(ChildPath(relative, entries[0].name)) && !entries[0].node.OtherNode?
    ensures entries[0].node.DirNode? ==> depth < 64
  {
    hide Normal, RealEntries, ChildPath;
    NodeAtFirst(entries, []);
    PathOfOne(relative, entries[0].name);
  }

  lemma ChildIsAllowed(relative: Text, entries: seq<Entry>, depth: nat, names: seq<Text>)
    requires RealEntries(entries) && entries != [] && entries[0].node.DirNode?
    requires Allowed(relative, entries, depth, [entries[0].name] + names)
    ensures Allowed(ChildPath(relative, entries[0].name), entries[0].node.entries, depth + 1, names)
  {
    hide Normal, RealEntries, ChildPath;
    NodeAtFirst(entries, names);
    assert ([entries[0].name] + names)[1..] == names;
  }

  lemma RestIsAllowed(relative: Text, entries: seq<Entry>, depth: nat, names: seq<Text>)
    requires RealEntries(entries) && entries != [] && Allowed(relative, entries, depth, names)
    ensures Allowed(relative, entries[1..], depth, names)
  {
    hide Normal, RealEntries, ChildPath;
    NodeAtFirst(entries, names);
  }

  /** Nothing but files and directories, with normal paths, and no directory more than 64 levels below the root. */
  ghost predicate HoldsOnlyFiles(entries: seq<Entry>) {
    forall names :: NodeAt(entries, names).Some? ==>
      && Normal(PathOf([], names)) && !NodeAt(entries, names).value.OtherNode?
      && (NodeAt(entries, names).value.DirNode? ==> |names| <= 64)
  }

  /**
   The kinds, names and nesting that the walk takes are exactly these: every node
   of the tree is a file or a directory with a normal path, and no directory is
   more than 64 levels below the root.
   */
  lemma TakesExactly(entries: seq<Entry>)
    requires RealEntries(entries)
    ensures Clean([], entries, 0) <==> HoldsOnlyFiles(entries)
  {
    hide Normal, RealEntries, Clean, PathOf, NodeAt;
    if Clean([], entries, 0) {
      forall names | NodeAt(entries, names).Some?
        ensures Normal(PathOf([], names)) && !NodeAt(entries, names).value.OtherNode?
          && (NodeAt(entries, names).value.DirNode? ==> |names| <= 64)
      {
        CleanAllows([], entries, 0, names);
        assert Allowed([], entries, 0, names);
      }
    }
    if HoldsOnlyFiles(entries) {
      forall names ensures Allowed([], entries, 0, names) {
      }
      AllowedIsClean([], entries, 0);
    }
  }

  // ----- What is listed and counted -----

  lemma {:induction false} ListedIsThere(relative: Text, entries: seq<Entry>, depth: nat, f: PackageFile) returns (names: seq<Text>)
    requires IsDirectory(relative) && RealEntries(entries) && Clean(relative, entries, depth) && f in Listing(relative, entries)
    ensures NodeAt(entries, names) == Some(FileNode(f.bytes, f.sha256)) && f.path == PathOf(relative, names)
    decreases entries
  {
    hide Normal, PackageRelativePath, EntryPath, ChildPath, RealEntries, NodeAt;
    RealRest(entries);
    var name, node := entries[0].name, entries[0].node;
    NameAccepted(relative, name);
    NodeAtFirst(entries, []);
    if f in NodeFiles(EntryPath(relative, name), node) {
      if node.DirNode? {
        var below := ListedIsThere(ChildPath(relative, name), node.entries, depth + 1, f);
        NodeAtFirst(entries, below);
        NodeIsBelowAnEntry(node.entries, below);
        names := [name] + below;
        assert names[1..] == below;
      } else {
        names := [name];
        PathOfOne(relative, name);
      }
    } else {
      names := ListedIsThere(relative, entries[1..], depth, f);
      NodeAtFirst(entries, names);
    }
  }

  lemma {:induction false} ThereIsListed(relative: Text, entries: seq<Entry>, depth: nat, names: seq<Text>)
    requires IsDirectory(relative) && RealEntries(entries) && Clean(relative, entries, depth)
    requires NodeAt(entries, names).Some? && NodeAt(entries, names).value.FileNode?
    ensures var node := NodeAt(entries, names).value; PackageFile(PathOf(relative, names), node.bytes, node.sha256) in Listing(relative, entries)
    decreases |names|, |entries|
  {
    hide Normal, PackageRelativePath, EntryPath, ChildPath, RealEntries;
    RealRest(entries);
    var name, node := entries[0].name, entries[0].node;
    NameAccepted(relative, name);
    if name != names[0] {
      ThereIsListed(relative, entries[1..], depth, names);
    } else if |names| == 1 {
      assert names == [name];
      PathOfOne(relative, name);
    } else {
      ThereIsListed(ChildPath(relative, name), node.entries, depth + 1, names[1..]);
    }
  }

  /** The inventory lists exactly the files of the tree, each under the names that lead to it. */
  lemma ListsExactlyTheFiles(entries: seq<Entry>, f: PackageFile)
    requires RealEntries(entries) && Clean([], entries, 0)
    ensures f in Listing([], entries) <==>
      exists names :: NodeAt(entries, names) == Some(FileNode(f.bytes, f.sha256)) && f.path == PathOf([], names)
  {
    hide RealEntries, Clean, PathOf, NodeAt, Listing;
    if f in Listing([], entries) {
      var names := ListedIsThere([], entries, 0, f);
    }
    forall names | NodeAt(entries, names) == Some(FileNode(f.bytes, f.sha256)) && f.path == PathOf([], names) ensures f in Listing([], entries) {
      ThereIsListed([], entries, 0, names);
    }
  }

  function SumBytes(files: seq<PackageFile>): nat {
    if files == [] then 0 else files[0].bytes + SumBytes(files[1..])
  }

  lemma {:induction false} SumBytesAdd(a: seq<PackageFile>, b: seq<PackageFile>)
    ensures SumBytes(a + b) == SumBytes(a) + SumBytes(b)
  {
    if a == [] {
      assert a + b == b;
    } else {
      assert (a + b)[1..] == a[1..] + b;
      SumBytesAdd(a[1..], b);
    }
  }

  /** The bytes that count towards the limit are those of the listed files. */
  lemma {:induction false} BytesAreTheFiles(relative: Text, entries: seq<Entry>)
    ensures BytesIn(entries) == SumBytes(Listing(relative, entries))
    decreases entries
  {
    hide EntryPath;
    if entries != [] {
      var path, node := EntryPath(relative, entries[0].name), entries[0].node;
      BytesAreTheFiles(relative, entries[1..]);
      SumBytesAdd(NodeFiles(path, node), Listing(relative, entries[1..]));
      match node {
        case FileNode(bytes, sha256) => assert NodeFiles(path, node)[1..] == [];
        case DirNode(below) => BytesAreTheFiles(path, below);
        case OtherNode =>
      }
    }
  }

  // ----- The count of entries -----

  /** All lists of names that lead to a node. */
  ghost function Places(entries: seq<Entry>): set<seq<Text>>
    decreases entries
  {
    if entries == [] then {}
    else
      var below := if entries[0].node.DirNode? then Places(entries[0].node.entries) else {};
      {[entries[0].name]} + (set names | names in below :: [entries[0].name] + names) + Places(entries[1..])
  }

  lemma {:induction false} PlacesLead(entries: seq<Entry>, names: seq<Text>)
    requires RealEntries(entries)
    ensures names in Places(entries) <==> NodeAt(entries, names).Some?
    decreases |names|, |entries|
  {
    hide RealEntries;
    if names == [] {
      EmptyLeadsNowhere(entries);
    } else if entries != [] {
      RealRest(entries);
      var name, node := entries[0].name, entries[0].node;
      assert names == [names[0]] + names[1..];
      PlacesLead(entries[1..], names);
      if names[0] != name {
      } else if |names| == 1 {
        assert names == [name];
      } else {
        NotInRest(entries, names);
        if node.DirNode? {
          PlacesLead(node.entries, names[1..]);
          assert forall below: seq<Text> :: [name] + below == names ==> below == names[1..] by {
            assert forall below: seq<Text> :: ([name] + below)[1..] == below;
          }
        }
      }
    }
  }

  lemma {:induction false} EmptyLeadsNowhere(entries: seq<Entry>)
    ensures [] !in Places(entries)
  {
    if entries != [] { EmptyLeadsNowhere(entries[1..]); }
  }

  lemma NotInRest(entries: seq<Entry>, names: seq<Text>)
    requires RealEntries(entries) && entries != [] && names != [] && names[0] == entries[0].name
    ensures NodeAt(entries[1..], names).None?
  {
    NodeIsBelow(entries[1..], names);
  }

  lemma NodeIsBelow(entries: seq<Entry>, names: seq<Text>)
    ensures NodeAt(entries, names).Some? ==> names != [] && exists i :: 0 <= i < |entries| && entries[i].name == names[0]
  {
    if NodeAt(entries, names).Some? { NodeIsBelowAnEntry(entries, names); }
  }

  lemma PrefixedCount(name: Text, places: set<seq<Text>>)
    ensures |set names | names in places :: [name] + names| == |places|
    decreases |places|
  {
    var prefixed := set names | names in places :: [name] + names;
    if places == {} {
      assert prefixed == {};
    } else {
      var one :| one in places;
      var rest := places - {one};
      PrefixedCount(name, rest);
      var fewer := set names | names in rest :: [name] + names;
      assert prefixed == fewer + {[name] + one};
      assert [name] + one !in fewer by {
        assert forall names: seq<Text> :: ([name] + names)[1..] == names;
      }
    }
  }

  lemma FirstPlacesApart(entries: seq<Entry>, names: seq<Text>)
    requires RealEntries(entries) && entries != [] && names != [] && names[0] == entries[0].name
    ensures names !in Places(entries[1..])
  {
    RealRest(entries);
    NotInRest(entries, names);
    PlacesLead(entries[1..], names);
  }

  lemma DisjointCount(a: set<seq<Text>>, b: set<seq<Text>>, c: set<seq<Text>>)
    requires a !! b && (a + b) !! c
    ensures |a + b + c| == |a| + |b| + |c|
  {
  }

  /** The places behind the first entry, and the rest of the directory, are three apart. */
  lemma PlacesApart(entries: seq<Entry>, below: set<seq<Text>>)
    requires RealEntries(entries) && entries != [] && [] !in below
    ensures var own: set<seq<Text>> := {[entries[0].name]};
      |own + (set names | names in below :: [entries[0].name] + names) + Places(entries[1..])| == 1 + |below| + |Places(entries[1..])|
  {
    hide RealEntries, NodeAt, Places;
    var name := entries[0].name;
    var own: set<seq<Text>> := {[name]};
    var deeper := set names | names in below :: [name] + names;
    forall names | names in deeper ensures names !in own && names !in Places(entries[1..]) {
      var tail :| tail in below && names == [name] + tail;
      assert tail != [];
      FirstPlacesApart(entries, names);
    }
    FirstPlacesApart(entries, [name]);
    PrefixedCount(name, below);
    DisjointCount(own, deeper, Places(entries[1..]));
  }

  /** The count that is limited is the number of places in the tree. */
  lemma {:induction false} CountsEveryPlace(entries: seq<Entry>)
    requires RealEntries(entries)
    ensures EntriesIn(entries) == |Places(entries)|
    decreases entries
  {
    hide RealEntries, NodeAt;
    if entries != [] {
      RealRest(entries);
      var node := entries[0].node;
      var below := if node.DirNode? then Places(node.entries) else {};
      CountsEveryPlace(entries[1..]);
      if node.DirNode? {
        CountsEveryPlace(node.entries);
        EmptyLeadsNowhere(node.entries);
      }
      PlacesApart(entries, below);
    }
  }

  /** A real directory fits the limits exactly when it holds only files and directories, at most 64 MiB and 10,000 entries. */
  lemma FitsExactly(entries: seq<Entry>)
    requires RealEntries(entries)
    ensures Fits([], entries, 0, 0, 0) <==>
      HoldsOnlyFiles(entries) && SumBytes(Listing([], entries)) <= 67_108_864 && |Places(entries)| <= 10_000
  {
    hide HoldsOnlyFiles, RealEntries, Clean, Listing, Places, SumBytes, BytesIn, EntriesIn;
    TakesExactly(entries);
    BytesAreTheFiles([], entries);
    CountsEveryPlace(entries);
  }
}
