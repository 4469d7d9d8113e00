/** Building the inode tree from a volume's catalog. */
module TreeBuild {
  import opened Basics
  import opened XorbFormat
  import opened InodeTree

  datatype Entry = Entry(path: string, fileHash: FileHash, size: nat)

  type DirMap = map<string, nat>

  /** An entry whose path is empty once leading slashes are gone is skipped. */
  predicate Named(e: Entry) {
    TrimStart(e.path) != ""
  }

  function Comps(e: Entry): seq<string> {
    Split(TrimStart(e.path))
  }

  function LeafNode(e: Entry, name: string, parent: nat): Node {
    Node(name, File, parent, [], Some(e.fileHash), e.size)
  }

  function DirNode(name: string, parent: nat): Node {
    Node(name, Dir, parent, [], None, 0)
  }

  /** A directory has neither content nor size. */
  predicate Bare(node: Node) {
    node.fileHash.None? && node.size == 0
  }

  // ---- Invariants ----

  ghost predicate PlainNames(nodes: Nodes) {
    forall i :: i in nodes && i != ROOT ==> '/' !in nodes[i].name
  }

  /** The directory map knows every directory by its path, and nothing else. */
  ghost predicate DirsMapped(nodes: Nodes, dirs: DirMap) {
    MapSound(nodes, dirs) && MapComplete(nodes, dirs)
  }

  ghost predicate MapSound(nodes: Nodes, dirs: DirMap) {
    forall a :: a in dirs ==>
      dirs[a] in nodes && dirs[a] != ROOT && nodes[dirs[a]].kind.Dir? && Parts(nodes, dirs[a]) == Split(a)
  }

  ghost predicate MapComplete(nodes: Nodes, dirs: DirMap) {
    forall i :: i in nodes && i != ROOT && nodes[i].kind.Dir? ==>
      Join(Parts(nodes, i)) in dirs && dirs[Join(Parts(nodes, i))] == i
  }

  ghost predicate TreeInv(nodes: Nodes, dirs: DirMap, next: nat) {
    TreeOk(nodes, next) && PlainNames(nodes) && DirsMapped(nodes, dirs)
  }

  /** Old nodes keep everything but their child lists. */
  ghost predicate Kept(nodes: Nodes, nodes': Nodes) {
    forall i :: i in nodes ==> i in nodes' && nodes'[i].(children := nodes[i].children) == nodes[i]
  }

  ghost predicate PartsKept(nodes: Nodes, nodes': Nodes) {
    forall i :: i in nodes ==> Parts(nodes', i) == Parts(nodes, i)
  }

  /** Every node added since is a directory on the way to `comps`. */
  ghost predicate OnlyDirsTo(nodes: Nodes, nodes': Nodes, comps: seq<string>) {
    forall i :: i in nodes' && i !in nodes ==>
      nodes'[i].kind.Dir? && Bare(nodes'[i]) && Parts(nodes', i) < comps
  }

  // ---- Adding one node ----

  lemma AddedParts(nodes: Nodes, next: nat, parent: nat, node: Node)
    requires TreeOk(nodes, next) && parent in nodes && node.parent == parent && node.children == []
      && nodes[parent].kind.Dir?
    ensures var nodes' := AddNode(nodes, parent, next, node);
            && TreeOk(nodes', next + 1) && Kept(nodes, nodes') && next !in nodes && next > ROOT
            && nodes'.Keys == nodes.Keys + {next} && nodes'[next] == node
            && PartsKept(nodes, nodes')
            && Parts(nodes', next) == Parts(nodes, parent) + [node.name]
  {
    InodesBelow(nodes, next);
    AddNodeKeepsTree(nodes, next, parent, node);
    AddNodeParts(nodes, next, parent, node);
  }

  lemma AddDirKeeps(nodes: Nodes, dirs: DirMap, next: nat, parent: nat, name: string, path: string)
    requires TreeInv(nodes, dirs, next) && parent in nodes && nodes[parent].kind.Dir? && '/' !in name
    requires Split(path) == Parts(nodes, parent) + [name] && path !in dirs
    ensures TreeInv(AddNode(nodes, parent, next, DirNode(name, parent)), dirs[path := next], next + 1)
  {
    hide TreeOk, Parts, Split, Join, AddNode, MapSound, MapComplete, Kept, PartsKept;
    var node := DirNode(name, parent);
    AddedParts(nodes, next, parent, node);
    JoinSplit(path);
    var nodes' := AddNode(nodes, parent, next, node);
    assert PlainNames(nodes') by { KeptNames(nodes, nodes', next); }
    DirMapSound(nodes, nodes', dirs, next, path);
    DirMapComplete(nodes, nodes', dirs, next, path);
  }

  lemma KeptNames(nodes: Nodes, nodes': Nodes, next: nat)
    requires PlainNames(nodes) && Kept(nodes, nodes') && nodes'.Keys == nodes.Keys + {next} && '/' !in nodes'[next].name
    ensures PlainNames(nodes')
  {
  }

  lemma DirMapSound(nodes: Nodes, nodes': Nodes, dirs: DirMap, next: nat, path: string)
    requires MapSound(nodes, dirs) && Kept(nodes, nodes') && PartsKept(nodes, nodes') && next !in nodes && next > ROOT
    requires next in nodes' && nodes'[next].kind.Dir? && Parts(nodes', next) == Split(path)
    ensures MapSound(nodes', dirs[path := next])
  {
    hide Parts, Split;
  }

  lemma DirMapComplete(nodes: Nodes, nodes': Nodes, dirs: DirMap, next: nat, path: string)
    requires MapComplete(nodes, dirs) && Kept(nodes, nodes') && PartsKept(nodes, nodes') && path !in dirs
    requires nodes'.Keys == nodes.Keys + {next} && Join(Parts(nodes', next)) == path
    ensures MapComplete(nodes', dirs[path := next])
  {
    hide Parts, Join;
    forall i | i in nodes' && i != ROOT && nodes'[i].kind.Dir?
      ensures Join(Parts(nodes', i)) in dirs[path := next] && dirs[path := next][Join(Parts(nodes', i))] == i
    {
      if i in nodes { assert nodes[i].kind.Dir?; }
    }
  }

  lemma AddLeafKeeps(nodes: Nodes, dirs: DirMap, next: nat, parent: nat, node: Node)
    requires TreeInv(nodes, dirs, next) && parent in nodes && nodes[parent].kind.Dir?
    requires '/' !in node.name && node.kind.File? && node.parent == parent && node.children == []
    ensures TreeInv(AddNode(nodes, parent, next, node), dirs, next + 1)
  {
    AddedParts(nodes, next, parent, node);
    hide TreeOk, Parts, Split, Join, AddNode;
    var nodes' := AddNode(nodes, parent, next, node);
    forall i | i in nodes' && i != ROOT && nodes'[i].kind.Dir?
      ensures Join(Parts(nodes', i)) in dirs && dirs[Join(Parts(nodes', i))] == i
    {
      assert i in nodes && nodes[i].kind.Dir?;
    }
  }

  // ---- One catalog entry ----

  lemma FirstCompNonEmpty(e: Entry)
    requires Named(e)
    ensures |Comps(e)| > 0 && Comps(e)[0] != "" && forall k :: 0 <= k < |Comps(e)| ==> '/' !in Comps(e)[k]
  {
  }

  lemma {:induction false} JoinNonEmpty(parts: seq<string>)
    requires |parts| > 0 && parts[0] != ""
    ensures Join(parts) != ""
  {
    if |parts| > 1 { assert |Join(parts)| >= |parts[0]|; }
  }

  /** How the accumulated prefix grows by one component. */
  lemma AccumStep(comps: seq<string>, k: nat)
    requires k < |comps| && comps[0] != ""
    ensures Join(comps[..k + 1]) == (if Join(comps[..k]) == "" then "" else Join(comps[..k]) + "/") + comps[k]
  {
    assert comps[..k + 1] == comps[..k] + [comps[k]];
    if k == 0 {
      assert comps[..1] == [comps[0]];
    } else {
      JoinNonEmpty(comps[..k]);
      JoinSnoc(comps[..k], comps[k]);
    }
  }

  /** Descend to, and where necessary create, the directory `comps[..k+1]`. */
  method EnterDir(nodes0: Nodes, dirs0: DirMap, next0: nat, parent0: nat, comps: seq<string>, k: nat, path: string)
    returns (nodes: Nodes, dirs: DirMap, next: nat, parent: nat)
    requires TreeInv(nodes0, dirs0, next0) && parent0 in nodes0 && nodes0[parent0].kind.Dir?
    requires k + 1 < |comps| && '/' !in comps[k] && Parts(nodes0, parent0) == comps[..k]
    requires Split(path) == comps[..k + 1]
    ensures TreeInv(nodes, dirs, next) && Kept(nodes0, nodes) && PartsKept(nodes0, nodes)
    ensures parent in nodes && nodes[parent].kind.Dir? && Parts(nodes, parent) == comps[..k + 1]
    ensures OnlyDirsTo(nodes0, nodes, comps)
  {
    hide TreeOk, PlainNames, Parts, Split, Join;
    nodes, dirs, next := nodes0, dirs0, next0;
    if path in dirs {
      parent := dirs[path];
    } else {
      parent := next;
      var node := DirNode(comps[k], parent0);
      assert comps[..k + 1] == comps[..k] + [comps[k]];
      AddDirKeeps(nodes, dirs, next, parent0, comps[k], path);
      AddedParts(nodes, next, parent0, node);
      hide AddNode;
      nodes := AddNode(nodes, parent0, next, node);
      dirs := dirs[path := next];
      next := next + 1;
    }
  }

  lemma OnlyDirsStep(a: Nodes, b: Nodes, c: Nodes, comps: seq<string>)
    requires OnlyDirsTo(a, b, comps) && OnlyDirsTo(b, c, comps) && Kept(a, b) && Kept(b, c) && PartsKept(a, b)
      && PartsKept(b, c)
    ensures OnlyDirsTo(a, c, comps) && Kept(a, c) && PartsKept(a, c)
  {
    hide Parts;
  }

  /** Walk down all components but the last, creating directories on the way. */
  method EnterDirs(nodes0: Nodes, dirs0: DirMap, next0: nat, comps: seq<string>)
    returns (nodes: Nodes, dirs: DirMap, next: nat, parent: nat)
    requires TreeInv(nodes0, dirs0, next0)
    requires |comps| > 0 && comps[0] != "" && forall k :: 0 <= k < |comps| ==> '/' !in comps[k]
    ensures TreeInv(nodes, dirs, next) && Kept(nodes0, nodes) && PartsKept(nodes0, nodes)
    ensures parent in nodes && nodes[parent].kind.Dir? && Parts(nodes, parent) == comps[..|comps| - 1]
    ensures OnlyDirsTo(nodes0, nodes, comps)
  {
    hide TreeInv, Parts, Split, Join, Kept, PartsKept, OnlyDirsTo;
    nodes, dirs, next := nodes0, dirs0, next0;
    parent := ROOT;
    var accum := "";
    RootParts(nodes, dirs, next);
    SameNodes(nodes, comps);
    for k := 0 to |comps| - 1
      invariant TreeInv(nodes, dirs, next)
      invariant parent in nodes && nodes[parent].kind.Dir? && Parts(nodes, parent) == comps[..k]
      invariant accum == Join(comps[..k])
      invariant Kept(nodes0, nodes) && PartsKept(nodes0, nodes) && OnlyDirsTo(nodes0, nodes, comps)
    {
      AccumStep(comps, k);
      accum := (if accum == "" then "" else accum + "/") + comps[k];
      SplitJoin(comps[..k + 1]);
      ghost var before := nodes;
      nodes, dirs, next, parent := EnterDir(nodes, dirs, next, parent, comps, k, accum);
      OnlyDirsStep(nodes0, before, nodes, comps);
    }
  }

  /** Insert one named entry: its directories, then its file, which ends up under its own path. */
  method InsertEntry(nodes0: Nodes, dirs0: DirMap, next0: nat, e: Entry)
    returns (nodes: Nodes, dirs: DirMap, next: nat, leaf: nat)
    requires TreeInv(nodes0, dirs0, next0) && Named(e)
    ensures TreeInv(nodes, dirs, next) && Kept(nodes0, nodes) && PartsKept(nodes0, nodes)
    ensures leaf in nodes && leaf !in nodes0 && leaf != ROOT && Parts(nodes, leaf) == Comps(e)
    ensures nodes[leaf].kind.File? && nodes[leaf].fileHash == Some(e.fileHash) && nodes[leaf].size == e.size
    ensures forall i :: i in nodes && i !in nodes0 && i != leaf ==>
              nodes[i].kind.Dir? && Bare(nodes[i]) && Parts(nodes, i) < Comps(e)
  {
    hide TreeInv, Parts, Kept, PartsKept, OnlyDirsTo, AddNode, Comps;
    var comps := Comps(e);
    FirstCompNonEmpty(e);
    var parent;
    nodes, dirs, next, parent := EnterDirs(nodes0, dirs0, next0, comps);
    var node := LeafNode(e, comps[|comps| - 1], parent);
    leaf := next;
    SplitLast(comps);
    AddLeafEffect(nodes0, nodes, dirs, next, parent, node, comps);
    nodes := AddNode(nodes, parent, next, node);
    next := next + 1;
  }

  lemma SplitLast<T>(s: seq<T>)
    requires |s| > 0
    ensures s[..|s| - 1] + [s[|s| - 1]] == s
  {
  }

  lemma RootParts(nodes: Nodes, dirs: DirMap, next: nat)
    requires TreeInv(nodes, dirs, next)
    ensures ROOT in nodes && nodes[ROOT].kind.Dir? && Parts(nodes, ROOT) == [] && Join([]) == ""
  {
  }

  lemma SameNodes(nodes: Nodes, comps: seq<string>)
    ensures Kept(nodes, nodes) && PartsKept(nodes, nodes) && OnlyDirsTo(nodes, nodes, comps)
  {
  }

  lemma AddLeafEffect(nodes0: Nodes, nodes: Nodes, dirs: DirMap, next: nat, parent: nat, node: Node, comps: seq<string>)
    requires TreeInv(nodes, dirs, next) && parent in nodes && nodes[parent].kind.Dir?
    requires '/' !in node.name && node.kind.File? && node.parent == parent && node.children == []
    requires Kept(nodes0, nodes) && PartsKept(nodes0, nodes) && OnlyDirsTo(nodes0, nodes, comps)
    requires Parts(nodes, parent) + [node.name] == comps
    ensures var nodes' := AddNode(nodes, parent, next, node);
            && TreeInv(nodes', dirs, next + 1) && Kept(nodes0, nodes') && PartsKept(nodes0, nodes')
            && next !in nodes0 && next > ROOT && next in nodes' && nodes'[next] == node && Parts(nodes', next) == comps
            && forall i :: i in nodes' && i !in nodes0 && i != next ==>
                 nodes'[i].kind.Dir? && Bare(nodes'[i]) && Parts(nodes', i) < comps
  {
    AddLeafKeeps(nodes, dirs, next, parent, node);
    AddedParts(nodes, next, parent, node);
    hide TreeOk, PlainNames, DirsMapped, Parts, AddNode;
  }

  // ---- The whole catalog ----

  /** `leaf` gives each processed named entry its file node; every file node is one of them, and
      every directory lies on the way to one of them. */
  ghost predicate LeavesOk(nodes: Nodes, entries: seq<Entry>, leaf: map<nat, nat>) {
    && (forall k :: k in leaf <==> 0 <= k < |entries| && Named(entries[k]))
    && (forall k :: k in leaf ==> LeafOk(nodes, entries[k], leaf[k]))
    && FilesAreLeaves(nodes, leaf)
    && (forall i :: i in nodes && nodes[i].kind.Dir? ==> Bare(nodes[i]))
    && DirsLeadTo(nodes, entries, leaf)
    && (forall j, k :: j in leaf && k in leaf && leaf[j] == leaf[k] ==> j == k)
  }

  ghost predicate FilesAreLeaves(nodes: Nodes, leaf: map<nat, nat>) {
    forall i :: i in nodes && nodes[i].kind.File? ==> exists k :: k in leaf && leaf[k] == i
  }

  ghost predicate DirsLeadTo(nodes: Nodes, entries: seq<Entry>, leaf: map<nat, nat>)
    requires forall k :: k in leaf ==> k < |entries|
  {
    forall i :: i in nodes && nodes[i].kind.Dir? && i != ROOT ==>
      exists k :: k in leaf && Parts(nodes, i) < Comps(entries[k])
  }

  ghost predicate LeafOk(nodes: Nodes, e: Entry, i: nat) {
    && i in nodes && i != ROOT && nodes[i].kind.File?
    && Parts(nodes, i) == Comps(e) && nodes[i].fileHash == Some(e.fileHash) && nodes[i].size == e.size
  }

  lemma LeavesStep(nodes0: Nodes, nodes: Nodes, entries: seq<Entry>, n: nat, leaf: map<nat, nat>, ino: nat)
    requires n < |entries| && LeavesOk(nodes0, entries[..n], leaf) && Named(entries[n])
    requires Kept(nodes0, nodes) && PartsKept(nodes0, nodes) && ino !in nodes0 && LeafOk(nodes, entries[n], ino)
    requires forall i :: i in nodes && i !in nodes0 && i != ino ==>
               nodes[i].kind.Dir? && Bare(nodes[i]) && Parts(nodes, i) < Comps(entries[n])
    ensures LeavesOk(nodes, entries[..n + 1], leaf[n := ino])
  {
    hide Parts, Comps, Named, FilesAreLeaves, DirsLeadTo;
    var leaf' := leaf[n := ino];
    LeavesStepLeaves(nodes0, nodes, entries, n, leaf, leaf', ino);
    LeavesStepDirs(nodes0, nodes, entries, n, leaf, leaf', ino);
    assert FilesAreLeaves(nodes, leaf') by { LeavesStepFiles(nodes0, nodes, n, leaf, ino); }
  }

  lemma LeavesStepFiles(nodes0: Nodes, nodes: Nodes, n: nat, leaf: map<nat, nat>, ino: nat)
    requires FilesAreLeaves(nodes0, leaf) && Kept(nodes0, nodes) && n !in leaf
    requires forall i :: i in nodes && i !in nodes0 && i != ino ==> nodes[i].kind.Dir?
    ensures FilesAreLeaves(nodes, leaf[n := ino])
  {
    var leaf' := leaf[n := ino];
    forall i | i in nodes && nodes[i].kind.File?
      ensures exists k :: k in leaf' && leaf'[k] == i
    {
      if i == ino {
        assert leaf'[n] == i;
      } else {
        var k :| k in leaf && leaf[k] == i;
        assert k in leaf' && leaf'[k] == i;
      }
    }
  }

  lemma LeavesStepLeaves(
    nodes0: Nodes, nodes: Nodes, entries: seq<Entry>, n: nat, leaf: map<nat, nat>, leaf': map<nat, nat>, ino: nat)
    requires n < |entries| && LeavesOk(nodes0, entries[..n], leaf) && leaf' == leaf[n := ino] && Named(entries[n])
    requires Kept(nodes0, nodes) && PartsKept(nodes0, nodes) && ino !in nodes0 && LeafOk(nodes, entries[n], ino)
    ensures forall k :: k in leaf' <==> 0 <= k < |entries[..n + 1]| && Named(entries[..n + 1][k])
    ensures forall k :: k in leaf' ==> LeafOk(nodes, entries[..n + 1][k], leaf'[k])
    ensures forall j, k :: j in leaf' && k in leaf' && leaf'[j] == leaf'[k] ==> j == k
  {
    hide Parts, Comps, Named;
    assert forall k :: 0 <= k < n ==> entries[..n][k] == entries[..n + 1][k];
    forall k | k in leaf'
      ensures LeafOk(nodes, entries[..n + 1][k], leaf'[k]) && (k != n ==> leaf'[k] != ino)
    {
      if k != n { assert LeafOk(nodes0, entries[..n][k], leaf[k]); }
    }
  }

  lemma LeavesStepDirs(
    nodes0: Nodes, nodes: Nodes, entries: seq<Entry>, n: nat, leaf: map<nat, nat>, leaf': map<nat, nat>, ino: nat)
    requires n < |entries| && LeavesOk(nodes0, entries[..n], leaf) && leaf' == leaf[n := ino]
    requires Kept(nodes0, nodes) && PartsKept(nodes0, nodes) && ino in nodes && nodes[ino].kind.File?
    requires forall i :: i in nodes && i !in nodes0 && i != ino ==>
               nodes[i].kind.Dir? && Bare(nodes[i]) && Parts(nodes, i) < Comps(entries[n])
    ensures (forall k :: k in leaf' ==> k < n + 1) && DirsLeadTo(nodes, entries[..n + 1], leaf')
  {
    hide Parts, Comps, Named;
    forall i | i in nodes && nodes[i].kind.Dir? && i != ROOT
      ensures exists k :: k in leaf' && Parts(nodes, i) < Comps(entries[..n + 1][k])
    {
      if i in nodes0 {
        var k :| k in leaf && Parts(nodes0, i) < Comps(entries[..n][k]);
        assert k in leaf' && Parts(nodes, i) < Comps(entries[..n + 1][k]);
      } else {
        assert n in leaf' && Parts(nodes, i) < Comps(entries[..n + 1][n]);
      }
    }
  }

  lemma SkipStep(nodes: Nodes, entries: seq<Entry>, n: nat, leaf: map<nat, nat>)
    requires n < |entries| && LeavesOk(nodes, entries[..n], leaf) && !Named(entries[n])
    ensures LeavesOk(nodes, entries[..n + 1], leaf)
  {
    hide Parts, Comps, Named;
    assert forall k :: 0 <= k < n ==> entries[..n][k] == entries[..n + 1][k];
  }

  /** Build the tree for any catalog listing.  The ghost results say which directory has which path
      and which file belongs to which entry. */
  method BuildTree(entries: seq<Entry>) returns (nodes: Nodes, next: nat, ghost dirs: DirMap, ghost leaf: map<nat, nat>)
    ensures TreeOk(nodes, next)
    ensures forall k :: 0 <= k < |entries| && Named(entries[k]) ==> exists i :: LeafOk(nodes, entries[k], i)
    ensures TreeInv(nodes, dirs, next) && LeavesOk(nodes, entries, leaf)
  {
    nodes := map[ROOT := Node("/", Dir, ROOT, [], None, 0)];
    var dirMap: DirMap := map[];
    next := 2;
    leaf := map[];
    assert TreeInv(nodes, dirMap, next) by { EmptyTree(nodes); }
    hide TreeInv, LeafOk, Kept, PartsKept, Parts, Comps;
    for n := 0 to |entries|
      invariant TreeInv(nodes, dirMap, next) && LeavesOk(nodes, entries[..n], leaf)
    {
      hide LeavesOk;
      if Named(entries[n]) {
        ghost var before := nodes;
        var ino;
        nodes, dirMap, next, ino := InsertEntry(nodes, dirMap, next, entries[n]);
        assert LeafOk(nodes, entries[n], ino) by { LeafIs(nodes, entries[n], ino); }
        LeavesStep(before, nodes, entries, n, leaf, ino);
        leaf := leaf[n := ino];
      } else {
        SkipStep(nodes, entries, n, leaf);
      }
    }
    assert entries[..|entries|] == entries;
    dirs := dirMap;
    TreeInvIsTree(nodes, dirs, next);
    forall k | 0 <= k < |entries| && Named(entries[k])
      ensures exists i :: LeafOk(nodes, entries[k], i)
    {
      assert LeafOk(nodes, entries[k], leaf[k]);
    }
  }

  lemma TreeInvIsTree(nodes: Nodes, dirs: DirMap, next: nat)
    requires TreeInv(nodes, dirs, next)
    ensures TreeOk(nodes, next)
  {
  }

  lemma LeafIs(nodes: Nodes, e: Entry, i: nat)
    requires i in nodes && i != ROOT && nodes[i].kind.File?
    requires Parts(nodes, i) == Comps(e) && nodes[i].fileHash == Some(e.fileHash) && nodes[i].size == e.size
    ensures LeafOk(nodes, e, i)
  {
  }

  lemma EmptyTree(nodes: Nodes)
    requires nodes == map[ROOT := Node("/", Dir, ROOT, [], None, 0)]
    ensures TreeInv(nodes, map[], 2)
  {
  }

  // ---- What the tree promises ----

  /** Each file's full path is its catalog path with exactly one leading slash. */
  lemma PathOfLeaf(nodes: Nodes, entries: seq<Entry>, leaf: map<nat, nat>, k: nat)
    requires LeavesOk(nodes, entries, leaf) && k in leaf
    ensures FullPath(nodes, leaf[k]) == "/" + TrimStart(entries[k].path)
    ensures TrimStart(entries[k].path)[0] != '/'
  {
    hide Split, Join, Parts;
    assert LeafOk(nodes, entries[k], leaf[k]);
    JoinSplit(TrimStart(entries[k].path));
  }

  /** No entry's path is another's, or a directory on the way to another's. */
  ghost predicate PrefixFree(entries: seq<Entry>) {
    forall j, k :: 0 <= j < |entries| && 0 <= k < |entries| && j != k && Named(entries[j]) && Named(entries[k]) ==>
      !(Comps(entries[j]) <= Comps(entries[k]))
  }

  lemma SameEntrySameParts(nodes: Nodes, next: nat, i: nat, j: nat)
    requires TreeOk(nodes, next) && i in nodes && j in nodes && SameEntry(nodes, i, j)
    ensures Parts(nodes, i) == Parts(nodes, j)
  {
    assert NodeOk(nodes, next, i) && NodeOk(nodes, next, j);
  }

  lemma FileIsNoDir(nodes: Nodes, entries: seq<Entry>, leaf: map<nat, nat>, i: nat, j: nat)
    requires LeavesOk(nodes, entries, leaf) && PrefixFree(entries)
    requires i in nodes && nodes[i].kind.File? && j in nodes && nodes[j].kind.Dir? && j != ROOT
    ensures Parts(nodes, i) != Parts(nodes, j)
  {
    hide Parts, Comps;
    var k :| k in leaf && leaf[k] == i;
    assert LeafOk(nodes, entries[k], i);
    var m :| m in leaf && Parts(nodes, j) < Comps(entries[m]);
  }

  lemma FilesDiffer(nodes: Nodes, entries: seq<Entry>, leaf: map<nat, nat>, i: nat, j: nat)
    requires LeavesOk(nodes, entries, leaf) && PrefixFree(entries)
    requires i in nodes && nodes[i].kind.File? && j in nodes && nodes[j].kind.File?
    requires Parts(nodes, i) == Parts(nodes, j)
    ensures i == j
  {
    hide Parts, Comps;
    var k :| k in leaf && leaf[k] == i;
    var m :| m in leaf && leaf[m] == j;
    assert LeafOk(nodes, entries[k], i) && LeafOk(nodes, entries[m], j);
  }

  /** A prefix-free catalog gives a tree in which siblings have different names. */
  lemma PrefixFreeNamesUnique(nodes: Nodes, dirs: DirMap, next: nat, entries: seq<Entry>, leaf: map<nat, nat>)
    requires TreeInv(nodes, dirs, next) && LeavesOk(nodes, entries, leaf) && PrefixFree(entries)
    ensures NamesUnique(nodes)
  {
    hide TreeOk, LeavesOk, PrefixFree, Parts, Join, Split;
    forall i, j | i in nodes && j in nodes && SameEntry(nodes, i, j)
      ensures i == j
    {
      SameEntrySameParts(nodes, next, i, j);
      if nodes[i].kind.File? {
        if nodes[j].kind.File? {
          FilesDiffer(nodes, entries, leaf, i, j);
        } else {
          FileIsNoDir(nodes, entries, leaf, i, j);
        }
      } else if nodes[j].kind.File? {
        FileIsNoDir(nodes, entries, leaf, j, i);
      } else {
        assert dirs[Join(Parts(nodes, i))] == i && dirs[Join(Parts(nodes, j))] == j;
      }
    }
  }

  /** Every proper prefix of an inode's names belongs to a directory above it. */
  lemma {:induction false} AncestorAt(nodes: Nodes, next: nat, ino: nat, prefix: seq<string>) returns (dir: nat)
    requires TreeOk(nodes, next) && ino in nodes && prefix < Parts(nodes, ino)
    ensures dir in nodes && nodes[dir].kind.Dir? && Parts(nodes, dir) == prefix
    decreases ino
  {
    assert NodeOk(nodes, next, ino);
    var parent := nodes[ino].parent;
    var above := Parts(nodes, parent);
    assert Parts(nodes, ino) == above + [nodes[ino].name];
    if prefix == above {
      dir := parent;
    } else {
      assert prefix < above;
      dir := AncestorAt(nodes, next, parent, prefix);
    }
  }

  lemma PrefixBreaksUnique(nodes: Nodes, next: nat, entries: seq<Entry>, leaf: map<nat, nat>, j: nat, k: nat)
    requires TreeOk(nodes, next) && NamesUnique(nodes) && LeavesOk(nodes, entries, leaf)
    requires j in leaf && k in leaf && j != k
    ensures !(Comps(entries[j]) <= Comps(entries[k]))
  {
    hide Parts, Comps, TreeOk, NamesUnique;
    assert LeafOk(nodes, entries[j], leaf[j]) && LeafOk(nodes, entries[k], leaf[k]);
    if Comps(entries[j]) == Comps(entries[k]) {
      PartsInjective(nodes, next, leaf[j], leaf[k]);
    } else if Comps(entries[j]) <= Comps(entries[k]) {
      var dir := AncestorAt(nodes, next, leaf[k], Comps(entries[j]));
      PartsInjective(nodes, next, leaf[j], dir);
    }
  }

  /** Siblings have different names exactly if the catalog is prefix-free. */
  lemma UniqueIffPrefixFree(nodes: Nodes, dirs: DirMap, next: nat, entries: seq<Entry>, leaf: map<nat, nat>)
    requires TreeInv(nodes, dirs, next) && LeavesOk(nodes, entries, leaf)
    ensures NamesUnique(nodes) <==> PrefixFree(entries)
  {
    hide Parts, Comps, TreeOk, NamesUnique, Named, PlainNames, DirsMapped;
    if PrefixFree(entries) {
      PrefixFreeNamesUnique(nodes, dirs, next, entries, leaf);
    }
    if NamesUnique(nodes) {
      forall j, k | j in leaf && k in leaf && j != k
        ensures !(Comps(entries[j]) <= Comps(entries[k]))
      {
        PrefixBreaksUnique(nodes, next, entries, leaf, j, k);
      }
    }
  }

  /** For a prefix-free catalog, walking lookups along an entry's path reaches its inode. */
  lemma WalkReachesLeaf(nodes: Nodes, dirs: DirMap, next: nat, entries: seq<Entry>, leaf: map<nat, nat>, k: nat)
    requires TreeInv(nodes, dirs, next) && LeavesOk(nodes, entries, leaf) && PrefixFree(entries) && k in leaf
    ensures Walk(nodes, Comps(entries[k])) == Some(leaf[k])
  {
    PrefixFreeNamesUnique(nodes, dirs, next, entries, leaf);
    hide Parts, Walk, Comps, PrefixFree, NamesUnique;
    assert LeafOk(nodes, entries[k], leaf[k]);
    WalkArrives(nodes, next, leaf[k]);
  }
}
