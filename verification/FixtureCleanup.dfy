/** Removal of an owned fixture tree, deepest entries first, over an abstract file tree. */
module FixtureCleanup {
  import opened Status
  import Order

  type Path = seq<string>

  datatype Kind = Directory | File | Symlink

  datatype Node = Node(kind: Kind, owned: bool, device: nat)

  type Nodes = map<Path, Node>

  predicate Below(root: Path, p: Path) { root < p }

  function Parent(p: Path): Path
    requires p != []
  {
    p[..|p| - 1]
  }

  function Entries(nodes: Nodes, root: Path): set<Path> { set p | p in nodes && Below(root, p) }

  predicate Mine(nodes: Nodes, p: Path, device: nat)
    requires p in nodes
  {
    nodes[p].owned && nodes[p].device == device
  }

  /** What the first walk looks at: the directories, the root among them. */
  ghost predicate DirectoriesMine(nodes: Nodes, root: Path)
    requires root in nodes
  {
    forall p :: p in nodes && root <= p && nodes[p].kind == Directory ==>
      nodes[p].owned && nodes[p].device == nodes[root].device
  }

  ghost predicate AllMine(nodes: Nodes, root: Path)
    requires root in nodes
  {
    forall p :: p in nodes && root <= p ==> nodes[p].owned && nodes[p].device == nodes[root].device
  }

  predicate Deeper(p: Path, q: Path) { |p| >= |q| }

  /** `os.walk` in any order: each entry once, links to directories not followed. */
  ghost predicate Enumerates(entries: seq<Path>, nodes: Nodes, root: Path) {
    multiset(entries) == multiset(Entries(nodes, root))
  }

  /** An entry comes after everything below it. */
  ghost predicate DeepestFirst(s: seq<Path>) { forall i, j :: InOrder(s, i, j) }

  predicate InOrder(s: seq<Path>, i: int, j: int) { 0 <= i < |s| && 0 <= j < |s| && s[i] < s[j] ==> j < i }

  lemma DepthOrder(entries: seq<Path>)
    ensures var s := Order.StableSort(entries, Deeper); DeepestFirst(s) && multiset(s) == multiset(entries)
  {
    Order.StableSortSorts(entries, Deeper);
    var s := Order.StableSort(entries, Deeper);
    forall i, j ensures InOrder(s, i, j) {
      if 0 <= i < j < |s| { assert Deeper(s[i], s[j]); }
    }
  }

  predicate Occupied(nodes: Nodes, p: Path) { exists q :: q in nodes && q != [] && Parent(q) == p }

  class FileTree {
    var nodes: Nodes
    ghost var removed: seq<Path>

    constructor (nodes: Nodes)
      ensures this.nodes == nodes && removed == []
    {
      this.nodes, removed := nodes, [];
    }

    /** Fails on anything but an empty directory. */
    method RemoveDirectory(p: Path) returns (ok: bool)
      modifies this
      ensures ok <==> p in old(nodes) && old(nodes)[p].kind == Directory && !Occupied(old(nodes), p)
      ensures nodes == (if ok then old(nodes) - {p} else old(nodes))
      ensures removed == (if ok then old(removed) + [p] else old(removed))
    {
      ok := p in nodes && nodes[p].kind == Directory && !Occupied(nodes, p);
      if ok { nodes, removed := nodes - {p}, removed + [p]; }
    }

    /** Removes a file or the link itself. */
    method Unlink(p: Path) returns (ok: bool)
      modifies this
      ensures ok <==> p in old(nodes) && old(nodes)[p].kind != Directory
      ensures nodes == (if ok then old(nodes) - {p} else old(nodes))
      ensures removed == (if ok then old(removed) + [p] else old(removed))
    {
      ok := p in nodes && nodes[p].kind != Directory;
      if ok { nodes, removed := nodes - {p}, removed + [p]; }
    }
  }

  datatype Ending = Absent | Refused | Foreign(at: Path) | Removed

  /** What is left when the first `i` entries are gone. */
  ghost predicate LeftAfter(nodes: Nodes, before: Nodes, s: seq<Path>, i: nat)
    requires i <= |s|
  {
    forall p :: LeftAt(nodes, before, s, i, p)
  }

  predicate LeftAt(nodes: Nodes, before: Nodes, s: seq<Path>, i: nat, p: Path)
    requires i <= |s|
  {
    (p in nodes <==> p in before && p !in s[..i]) && (p in nodes ==> nodes[p] == before[p])
  }

  /** The entries, each at one place of the list. */
  ghost predicate Lists(s: seq<Path>, before: Nodes, root: Path) {
    (forall p :: ListedAt(s, before, root, p)) && (forall i, j :: Apart(s, i, j))
  }

  predicate ListedAt(s: seq<Path>, before: Nodes, root: Path, p: Path) { p in s <==> p in before && Below(root, p) }

  predicate Apart(s: seq<Path>, i: int, j: int) { 0 <= i < j < |s| ==> s[i] != s[j] }

  lemma GoneBefore(before: Nodes, root: Path, s: seq<Path>, i: nat, q: Path)
    requires i < |s| && DeepestFirst(s) && Lists(s, before, root) && q in before && s[i] < q
    ensures q in s[..i]
  {
    assert ListedAt(s, before, root, s[i]) && s[i] in s;
    assert ListedAt(s, before, root, q) && Below(root, q);
    var j :| 0 <= j < |s| && s[j] == q;
    assert InOrder(s, i, j);
  }

  /** When its turn comes, everything below an entry is gone. */
  lemma EmptyInTurn(nodes: Nodes, before: Nodes, root: Path, s: seq<Path>, i: nat)
    requires i < |s| && LeftAfter(nodes, before, s, i) && DeepestFirst(s) && Lists(s, before, root)
    ensures !Occupied(nodes, s[i])
  {
    forall q | q != [] && Parent(q) == s[i] ensures q !in nodes {
      assert LeftAt(nodes, before, s, i, q);
      if q in before { GoneBefore(before, root, s, i, q); }
    }
  }

  lemma RootInTurn(nodes: Nodes, before: Nodes, root: Path, s: seq<Path>)
    requires LeftAfter(nodes, before, s, |s|) && Lists(s, before, root)
    ensures !Occupied(nodes, root)
  {
    assert s[..|s|] == s;
    forall q | q != [] && Parent(q) == root ensures q !in nodes {
      assert LeftAt(nodes, before, s, |s|, q) && ListedAt(s, before, root, q) && Below(root, q);
    }
  }

  lemma OneMoreGone(nodes: Nodes, before: Nodes, s: seq<Path>, i: nat, next: Nodes)
    requires i < |s| && LeftAfter(nodes, before, s, i) && next == nodes - {s[i]}
    ensures LeftAfter(next, before, s, i + 1)
  {
    assert s[..i + 1] == s[..i] + [s[i]];
    var k := i + 1;
    forall p ensures LeftAt(next, before, s, k, p) { assert LeftAt(nodes, before, s, i, p); }
  }

  /** Distinct, and exactly the entries. */
  lemma EnumerationFacts(entries: seq<Path>, nodes: Nodes, root: Path)
    requires Enumerates(entries, nodes, root)
    ensures Lists(entries, nodes, root)
  {
    var m := multiset(entries);
    forall p ensures ListedAt(entries, nodes, root, p) {
      assert p in entries <==> p in m;
      assert p in m <==> p in Entries(nodes, root);
    }
    forall i, j ensures Apart(entries, i, j) {
      if 0 <= i < j < |entries| {
        assert m[entries[i]] <= 1;
        if entries[i] == entries[j] { TwiceIn(entries, i, j); }
      }
    }
  }

  lemma TwiceIn(s: seq<Path>, i: nat, j: nat)
    requires i < j < |s| && s[i] == s[j]
    ensures multiset(s)[s[i]] >= 2
  {
    assert s == s[..i] + ([s[i]] + (s[i + 1..j] + ([s[j]] + s[j + 1..])));
  }

  /** Everything that is gone was below the root and ours, and the rest is as it was. */
  ghost predicate OnlyOursGone(before: Nodes, after: Nodes, root: Path)
    requires root in before
  {
    && (forall p :: p in before && p !in after ==> Below(root, p) && Mine(before, p, before[root].device))
    && (forall p :: p in after ==> p in before && after[p] == before[p])
  }

  /**
   Removal of the tree at `root`. `marked` is the ownership marker check, and `entries` what walking the
   quiescent tree lists.
   */
  method RemoveOwnedTree(tree: FileTree, root: Path, marked: bool, entries: seq<Path>) returns (r: Ending)
    requires Enumerates(entries, tree.nodes, root) && tree.removed == []
    modifies tree
    ensures r == Absent <==> root !in old(tree.nodes)
    // success, exactly when everything there is ours: the tree is gone, the rest untouched, each entry removed once
    ensures r == Removed <==>
      root in old(tree.nodes) && old(tree.nodes)[root].kind == Directory && marked && AllMine(old(tree.nodes), root)
    ensures r == Removed ==>
      && tree.nodes == old(tree.nodes) - Entries(old(tree.nodes), root) - {root}
      && multiset(tree.removed) == multiset(Entries(old(tree.nodes), root)) + multiset{root}
    // a foreign directory, or a missing marker, is found before anything is touched
    ensures r == Refused <==>
      root in old(tree.nodes)
      && !(old(tree.nodes)[root].kind == Directory && marked && DirectoriesMine(old(tree.nodes), root))
    ensures r in {Absent, Refused} ==> tree.nodes == old(tree.nodes)
    // any other foreign entry is left
    ensures r.Foreign? ==>
      && root in old(tree.nodes) && r.at in old(tree.nodes) && r.at in tree.nodes
      && !Mine(old(tree.nodes), r.at, old(tree.nodes)[root].device)
      && OnlyOursGone(old(tree.nodes), tree.nodes, root)
  {
    if root !in tree.nodes { return Absent; }
    if tree.nodes[root].kind != Directory || !marked { return Refused; }
    EnumerationFacts(entries, tree.nodes, root);
    var clean := WalkDirectories(tree, root, entries);
    if !clean { return Refused; }
    var foreign := RemoveSorted(tree, root, entries);
    return if foreign.Some? then Foreign(foreign.value) else Removed;
  }

  /** The part that deletes, once every directory is known to be ours. */
  method RemoveSorted(tree: FileTree, root: Path, entries: seq<Path>) returns (foreign: Option<Path>)
    requires Enumerates(entries, tree.nodes, root) && tree.removed == []
    requires root in tree.nodes && tree.nodes[root].kind == Directory && DirectoriesMine(tree.nodes, root)
    modifies tree
    ensures foreign.None? ==>
      && AllMine(old(tree.nodes), root)
      && tree.nodes == old(tree.nodes) - Entries(old(tree.nodes), root) - {root}
      && multiset(tree.removed) == multiset(Entries(old(tree.nodes), root)) + multiset{root}
    ensures foreign.Some? ==>
      && foreign.value in tree.nodes && foreign.value in old(tree.nodes) && root <= foreign.value
      && !Mine(old(tree.nodes), foreign.value, old(tree.nodes)[root].device)
      && OnlyOursGone(old(tree.nodes), tree.nodes, root)
  {
    ghost var before := tree.nodes;
    DepthOrder(entries);
    var sorted := Order.StableSort(entries, Deeper);
    EnumerationFacts(sorted, before, root);
    foreign := RemoveEntries(tree, root, sorted);
    if foreign.Some? {
      assert ListedAt(sorted, before, root, foreign.value);
      return;
    }
    RootInTurn(tree.nodes, before, root, sorted);
    assert sorted[..|sorted|] == sorted;
    assert ListedAt(sorted, before, root, root) && LeftAt(tree.nodes, before, sorted, |sorted|, root);
    EverythingMine(before, root, sorted);
    ghost var emptied := tree.nodes;
    var last := tree.RemoveDirectory(root);
    assert last;
    WholeTreeGone(emptied, before, root, sorted);
  }

  lemma EverythingMine(before: Nodes, root: Path, sorted: seq<Path>)
    requires root in before && before[root].kind == Directory
    requires DirectoriesMine(before, root) && Lists(sorted, before, root)
    requires MineUpTo(before, sorted, |sorted|, before[root].device)
    ensures AllMine(before, root)
  {
    forall p | p in before && root <= p ensures Mine(before, p, before[root].device) {
      if p != root {
        assert ListedAt(sorted, before, root, p);
        var k :| 0 <= k < |sorted| && sorted[k] == p;
        assert MineAt(before, sorted, k, before[root].device);
      }
    }
  }

  lemma WholeTreeGone(emptied: Nodes, before: Nodes, root: Path, sorted: seq<Path>)
    requires Lists(sorted, before, root) && LeftAfter(emptied, before, sorted, |sorted|)
    ensures emptied - {root} == before - Entries(before, root) - {root}
  {
    assert sorted[..|sorted|] == sorted;
    forall p ensures p in emptied <==> p in before - Entries(before, root) {
      assert LeftAt(emptied, before, sorted, |sorted|, p) && ListedAt(sorted, before, root, p);
    }
    forall p | p in emptied ensures emptied[p] == before[p] { assert LeftAt(emptied, before, sorted, |sorted|, p); }
    assert emptied == before - Entries(before, root);
  }

  ghost predicate MineUpTo(before: Nodes, s: seq<Path>, i: nat, device: nat) {
    forall k :: 0 <= k < i ==> MineAt(before, s, k, device)
  }

  predicate MineAt(before: Nodes, s: seq<Path>, k: nat, device: nat) {
    k < |s| && s[k] in before && Mine(before, s[k], device)
  }

  /** One turn of the loop: an entry of ours is removed, and neither removal can fail. */
  method RemoveEntry(tree: FileTree, root: Path, device: nat, sorted: seq<Path>, i: nat, ghost before: Nodes)
    returns (ours: bool)
    requires i < |sorted| && Lists(sorted, before, root) && DeepestFirst(sorted)
    requires LeftAfter(tree.nodes, before, sorted, i)
    modifies tree
    ensures sorted[i] in before && (ours <==> Mine(before, sorted[i], device))
    ensures ours ==> LeftAfter(tree.nodes, before, sorted, i + 1) && tree.removed == old(tree.removed) + [sorted[i]]
    ensures !ours ==> tree.nodes == old(tree.nodes) && tree.removed == old(tree.removed) && sorted[i] in tree.nodes
  {
    var path := sorted[i];
    StillThere(tree.nodes, before, root, sorted, i);
    if !tree.nodes[path].owned || tree.nodes[path].device != device { return false; }
    ghost var nodes := tree.nodes;
    var ok: bool;
    if tree.nodes[path].kind == Directory {
      EmptyInTurn(nodes, before, root, sorted, i);
      ok := tree.RemoveDirectory(path);
    } else {
      ok := tree.Unlink(path);
    }
    assert ok;
    OneMoreGone(nodes, before, sorted, i, tree.nodes);
    return true;
  }

  lemma StillThere(nodes: Nodes, before: Nodes, root: Path, s: seq<Path>, i: nat)
    requires i < |s| && Lists(s, before, root) && LeftAfter(nodes, before, s, i)
    ensures s[i] in before && s[i] in nodes && nodes[s[i]] == before[s[i]]
  {
    assert s[i] in s && ListedAt(s, before, root, s[i]) && LeftAt(nodes, before, s, i, s[i]);
    forall j | 0 <= j < i ensures s[j] != s[i] { assert Apart(s, j, i); }
  }

  lemma OnlyThoseGone(nodes: Nodes, before: Nodes, root: Path, s: seq<Path>, i: nat)
    requires root in before && i <= |s| && Lists(s, before, root) && LeftAfter(nodes, before, s, i)
    requires MineUpTo(before, s, i, before[root].device)
    ensures OnlyOursGone(before, nodes, root)
  {
    forall p | p in before && p !in nodes ensures Below(root, p) && Mine(before, p, before[root].device) {
      assert LeftAt(nodes, before, s, i, p) && p in s[..i];
      var k :| 0 <= k < i && s[k] == p;
      assert MineAt(before, s, k, before[root].device) && ListedAt(s, before, root, p);
    }
    forall p | p in nodes ensures p in before && nodes[p] == before[p] { assert LeftAt(nodes, before, s, i, p); }
  }

  /** The removal loop; it stops at the first entry that is not ours, and nothing else can stop it. */
  method RemoveEntries(tree: FileTree, root: Path, sorted: seq<Path>) returns (foreign: Option<Path>)
    requires Lists(sorted, tree.nodes, root) && DeepestFirst(sorted) && tree.removed == []
    requires root in tree.nodes
    modifies tree
    ensures foreign.None? ==>
      && LeftAfter(tree.nodes, old(tree.nodes), sorted, |sorted|) && tree.removed == sorted
      && MineUpTo(old(tree.nodes), sorted, |sorted|, old(tree.nodes)[root].device)
    ensures foreign.Some? ==>
      && foreign.value in tree.nodes && foreign.value in old(tree.nodes) && foreign.value in sorted
      && !Mine(old(tree.nodes), foreign.value, old(tree.nodes)[root].device)
      && OnlyOursGone(old(tree.nodes), tree.nodes, root)
  {
    ghost var before := tree.nodes;
    var device := tree.nodes[root].device;
    forall p ensures LeftAt(before, before, sorted, 0, p) {}
    for i := 0 to |sorted|
      invariant LeftAfter(tree.nodes, before, sorted, i) && tree.removed == sorted[..i]
      invariant MineUpTo(before, sorted, i, device)
    {
      var ours := RemoveEntry(tree, root, device, sorted, i, before);
      if !ours {
        OnlyThoseGone(tree.nodes, before, root, sorted, i);
        return Some(sorted[i]);
      }
      assert sorted[..i + 1] == sorted[..i] + [sorted[i]];
      assert MineAt(before, sorted, i, device);
    }
    assert sorted[..|sorted|] == sorted;
    return None;
  }

  /** The first walk: every directory from the root down must be ours. */
  method WalkDirectories(tree: FileTree, root: Path, entries: seq<Path>) returns (clean: bool)
    requires root in tree.nodes && tree.nodes[root].kind == Directory
    requires Lists(entries, tree.nodes, root)
    ensures clean <==> DirectoriesMine(tree.nodes, root)
  {
    var device := tree.nodes[root].device;
    if !tree.nodes[root].owned { return false; }
    for i := 0 to |entries|
      invariant forall k :: 0 <= k < i ==>
        entries[k] in tree.nodes && (tree.nodes[entries[k]].kind == Directory ==> Mine(tree.nodes, entries[k], device))
    {
      assert entries[i] in entries && ListedAt(entries, tree.nodes, root, entries[i]);
      var node := tree.nodes[entries[i]];
      if node.kind == Directory && (!node.owned || node.device != device) { return false; }
    }
    forall p | p in tree.nodes && root <= p && tree.nodes[p].kind == Directory ensures Mine(tree.nodes, p, device) {
      if p != root {
        assert ListedAt(entries, tree.nodes, root, p);
        var k :| 0 <= k < |entries| && entries[k] == p;
      }
    }
    return true;
  }
}
