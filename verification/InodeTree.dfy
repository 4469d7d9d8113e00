/** The mount's inode tree: how it grows, how paths are read off it, and when a path leads back to
    its inode. */
module InodeTree {
  import opened Basics
  import opened XorbFormat
  import opened ByteRanges

  const ROOT: nat := 1

  datatype Kind = Dir | File

  datatype Node = Node(name: string, kind: Kind, parent: nat, children: seq<nat>, fileHash: Option<FileHash>, size: nat)

  type Nodes = map<nat, Node>

  // ---- Path text ----

  function Join(parts: seq<string>): string {
    if |parts| == 0 then "" else if |parts| == 1 then parts[0] else parts[0] + "/" + Join(parts[1..])
  }

  /** `str::split('/')`: at least one component, possibly empty ones. */
  function Split(path: string): (parts: seq<string>)
    ensures |parts| > 0 && forall k :: 0 <= k < |parts| ==> '/' !in parts[k]
  {
    var i := IndexOf(path, '/');
    if i == |path| then assert path[..i] == path; [path] else [path[..i]] + Split(path[i + 1..])
  }

  function TrimStart(path: string): (r: string)
    ensures |r| == 0 || r[0] != '/'
  {
    if |path| > 0 && path[0] == '/' then TrimStart(path[1..]) else path
  }

  /** Exactly the leading slashes are gone. */
  lemma {:induction false} TrimsSlashes(path: string)
    ensures var n := |path| - |TrimStart(path)|;
            0 <= n && TrimStart(path) == path[n..] && forall i :: 0 <= i < n ==> path[i] == '/'
  {
    if |path| > 0 && path[0] == '/' {
      TrimsSlashes(path[1..]);
      var n := |path[1..]| - |TrimStart(path[1..])|;
      forall i | 1 <= i < n + 1
        ensures path[i] == '/'
      {
        assert path[1..][i - 1] == '/';
      }
    }
  }

  lemma {:induction false} JoinSplit(path: string)
    ensures Join(Split(path)) == path
  {
    var i := IndexOf(path, '/');
    if i < |path| {
      JoinSplit(path[i + 1..]);
      JoinCons(path[..i], Split(path[i + 1..]));
      RejoinAt(path, i, '/');
    }
  }

  lemma JoinCons(first: string, rest: seq<string>)
    requires |rest| > 0
    ensures Join([first] + rest) == first + "/" + Join(rest)
  {
    assert ([first] + rest)[1..] == rest;
  }

  lemma RejoinAt(s: string, i: nat, c: char)
    requires i < |s| && s[i] == c
    ensures s[..i] + [c] + s[i + 1..] == s
  {
  }

  lemma {:induction false} SplitJoin(parts: seq<string>)
    requires |parts| > 0 && forall k :: 0 <= k < |parts| ==> '/' !in parts[k]
    ensures Split(Join(parts)) == parts
  {
    var path := Join(parts);
    if |parts| == 1 {
      assert IndexOf(path, '/') == |path|;
    } else {
      IndexOfSplit(parts[0], Join(parts[1..]), '/');
      assert path[..|parts[0]|] == parts[0] && path[|parts[0]| + 1..] == Join(parts[1..]);
      SplitJoin(parts[1..]);
    }
  }

  lemma {:induction false} JoinSnoc(parts: seq<string>, last: string)
    requires |parts| > 0
    ensures Join(parts + [last]) == Join(parts) + "/" + last
  {
    if |parts| == 1 {
      assert (parts + [last])[1..] == [last];
    } else {
      JoinSnoc(parts[1..], last);
      assert (parts + [last])[1..] == parts[1..] + [last];
    }
  }

  // ---- The tree ----

  ghost predicate NodeOk(nodes: Nodes, next: nat, i: nat)
    requires i in nodes
  {
    && ROOT <= i < next && Distinct(nodes[i].children)
    && (i != ROOT ==> nodes[i].parent in nodes && nodes[i].parent < i && nodes[nodes[i].parent].kind.Dir?)
  }

  ghost predicate Listed(nodes: Nodes, p: nat, c: nat)
    requires p in nodes
  {
    c in nodes[p].children <==> c in nodes && c != ROOT && nodes[c].parent == p
  }

  /** Parents come before children, and child lists say exactly what parent fields say. */
  ghost predicate TreeOk(nodes: Nodes, next: nat) {
    && ROOT in nodes && nodes[ROOT].kind.Dir? && nodes[ROOT].parent == ROOT
    && (forall i {:trigger NodeOk(nodes, next, i)} :: i in nodes ==> NodeOk(nodes, next, i))
    && (forall p, c {:trigger Listed(nodes, p, c)} :: p in nodes ==> Listed(nodes, p, c))
  }

  /** Names on the way from the root. */
  function Parts(nodes: Nodes, ino: nat): seq<string>
    decreases ino
  {
    if ino == ROOT || ino !in nodes || nodes[ino].parent >= ino then []
    else Parts(nodes, nodes[ino].parent) + [nodes[ino].name]
  }

  function FullPath(nodes: Nodes, ino: nat): string {
    "/" + Join(Parts(nodes, ino))
  }

  /** A new last child of `parent`. */
  function AddNode(nodes: Nodes, parent: nat, ino: nat, node: Node): Nodes
    requires parent in nodes
  {
    nodes[ino := node][parent := nodes[parent].(children := nodes[parent].children + [ino])]
  }

  lemma InodesBelow(nodes: Nodes, next: nat)
    requires TreeOk(nodes, next)
    ensures forall i :: i in nodes ==> i < next
  {
    forall i | i in nodes
      ensures i < next
    {
      assert NodeOk(nodes, next, i);
    }
  }

  /** A new node becomes the last child of its parent; every other node keeps all it had. */
  lemma AddNodeKeepsTree(nodes: Nodes, next: nat, parent: nat, node: Node)
    requires TreeOk(nodes, next) && parent in nodes && nodes[parent].kind.Dir?
    requires node.parent == parent && node.children == []
    ensures var nodes' := AddNode(nodes, parent, next, node);
            && TreeOk(nodes', next + 1) && nodes'.Keys == nodes.Keys + {next} && next !in nodes && nodes'[next] == node
            && nodes'[parent] == nodes[parent].(children := nodes[parent].children + [next])
            && forall i :: i in nodes && i != parent ==> nodes'[i] == nodes[i]
  {
    var nodes' := AddNode(nodes, parent, next, node);
    assert NodeOk(nodes, next, ROOT) && NodeOk(nodes, next, parent);
    InodesBelow(nodes, next);
    forall i | i in nodes'
      ensures NodeOk(nodes', next + 1, i)
    {
      if i in nodes {
        assert NodeOk(nodes, next, i);
        assert Listed(nodes, i, next);
      }
    }
    forall p, c | p in nodes'
      ensures Listed(nodes', p, c)
    {
      if p in nodes { assert Listed(nodes, p, c); }
      if c in nodes { assert NodeOk(nodes, next, c); }
    }
  }

  /** Same names and parents for every node of the first tree. */
  ghost predicate SameShape(nodes: Nodes, nodes': Nodes) {
    forall i :: i in nodes ==> i in nodes' && nodes'[i].name == nodes[i].name && nodes'[i].parent == nodes[i].parent
  }

  lemma {:induction false} PartsOfSameShape(nodes: Nodes, nodes': Nodes, next: nat, ino: nat)
    requires TreeOk(nodes, next) && SameShape(nodes, nodes') && ino in nodes
    ensures Parts(nodes', ino) == Parts(nodes, ino)
    decreases ino
  {
    assert NodeOk(nodes, next, ino);
    if ino != ROOT {
      PartsOfSameShape(nodes, nodes', next, nodes[ino].parent);
    }
  }

  lemma AddNodeParts(nodes: Nodes, next: nat, parent: nat, node: Node)
    requires TreeOk(nodes, next) && parent in nodes && node.parent == parent
    ensures var nodes' := AddNode(nodes, parent, next, node);
            && SameShape(nodes, nodes')
            && (forall i :: i in nodes ==> Parts(nodes', i) == Parts(nodes, i))
            && Parts(nodes', next) == Parts(nodes, parent) + [node.name]
  {
    var nodes' := AddNode(nodes, parent, next, node);
    assert NodeOk(nodes, next, ROOT) && NodeOk(nodes, next, parent);
    InodesBelow(nodes, next);
    hide TreeOk, NodeOk;
    forall i | i in nodes
      ensures Parts(nodes', i) == Parts(nodes, i)
    {
      PartsOfSameShape(nodes, nodes', next, i);
    }
  }

  ghost predicate SameEntry(nodes: Nodes, i: nat, j: nat)
    requires i in nodes && j in nodes
  {
    i != ROOT && j != ROOT && nodes[i].parent == nodes[j].parent && nodes[i].name == nodes[j].name
  }

  /** Siblings have different names, and names are single components. */
  ghost predicate NamesUnique(nodes: Nodes) {
    && (forall i :: i in nodes && i != ROOT ==> '/' !in nodes[i].name)
    && (forall i, j :: i in nodes && j in nodes && SameEntry(nodes, i, j) ==> i == j)
  }

  lemma {:induction false} PartsHaveNoSlash(nodes: Nodes, next: nat, ino: nat)
    requires TreeOk(nodes, next) && NamesUnique(nodes) && ino in nodes
    ensures forall k :: 0 <= k < |Parts(nodes, ino)| ==> '/' !in Parts(nodes, ino)[k]
    ensures |Parts(nodes, ino)| == 0 <==> ino == ROOT
    decreases ino
  {
    assert NodeOk(nodes, next, ino);
    hide TreeOk;
    if ino != ROOT {
      PartsHaveNoSlash(nodes, next, nodes[ino].parent);
    }
  }

  lemma {:induction false} PartsInjective(nodes: Nodes, next: nat, a: nat, b: nat)
    requires TreeOk(nodes, next) && NamesUnique(nodes) && a in nodes && b in nodes
    requires Parts(nodes, a) == Parts(nodes, b)
    ensures a == b
    decreases a
  {
    PartsHaveNoSlash(nodes, next, a);
    PartsHaveNoSlash(nodes, next, b);
    assert NodeOk(nodes, next, a) && NodeOk(nodes, next, b);
    hide TreeOk;
    if a != ROOT {
      var pa, pb := Parts(nodes, nodes[a].parent), Parts(nodes, nodes[b].parent);
      var n := |Parts(nodes, a)| - 1;
      assert pa == Parts(nodes, a)[..n] && pb == Parts(nodes, b)[..n];
      assert nodes[a].name == Parts(nodes, a)[n] && nodes[b].name == Parts(nodes, b)[n];
      PartsInjective(nodes, next, nodes[a].parent, nodes[b].parent);
      assert SameEntry(nodes, a, b);
    }
  }

  /** With unique sibling names no two inodes share a full path. */
  lemma FullPathInjective(nodes: Nodes, next: nat, a: nat, b: nat)
    requires TreeOk(nodes, next) && NamesUnique(nodes) && a in nodes && b in nodes
    requires a != ROOT && b != ROOT && FullPath(nodes, a) == FullPath(nodes, b)
    ensures a == b
  {
    PartsHaveNoSlash(nodes, next, a);
    PartsHaveNoSlash(nodes, next, b);
    var pa, pb := Parts(nodes, a), Parts(nodes, b);
    assert FullPath(nodes, a)[1..] == Join(pa) && FullPath(nodes, b)[1..] == Join(pb);
    SplitJoin(pa);
    SplitJoin(pb);
    PartsInjective(nodes, next, a, b);
  }

  function Reversed<T>(s: seq<T>): seq<T> {
    if |s| == 0 then [] else Reversed(s[1..]) + [s[0]]
  }

  lemma {:induction false} ReversedSnoc<T>(s: seq<T>, x: T)
    ensures Reversed(s + [x]) == [x] + Reversed(s)
  {
    if |s| > 0 {
      ReversedSnoc(s[1..], x);
      assert (s + [x])[1..] == s[1..] + [x];
    } else {
      assert s + [x] == [x];
      assert [x][1..] == [];
    }
  }

  /** Walk up to the root, collecting names; parents being smaller makes the walk end. */
  method ComputeFullPath(nodes: Nodes, next: nat, ino: nat) returns (path: string)
    requires TreeOk(nodes, next) && ino in nodes
    ensures path == FullPath(nodes, ino)
  {
    var parts: seq<string> := [];
    var cur := ino;
    while cur != ROOT
      invariant cur in nodes
      invariant Parts(nodes, ino) == Parts(nodes, cur) + Reversed(parts)
      decreases cur
    {
      assert NodeOk(nodes, next, cur);
      ReversedSnoc(parts, nodes[cur].name);
      AppendAssociates(Parts(nodes, nodes[cur].parent), [nodes[cur].name], Reversed(parts));
      parts := parts + [nodes[cur].name];
      cur := nodes[cur].parent;
    }
    assert Parts(nodes, ROOT) + Reversed(parts) == Reversed(parts);
    path := "/" + Join(Reversed(parts));
  }

  // ---- Lookup ----

  /** First of `children` with this name. */
  function FindChild(nodes: Nodes, children: seq<nat>, name: string): Option<nat> {
    if |children| == 0 then None
    else if children[0] in nodes && nodes[children[0]].name == name then Some(children[0])
    else FindChild(nodes, children[1..], name)
  }

  function LookupChild(nodes: Nodes, parent: nat, name: string): Option<nat> {
    if parent in nodes then FindChild(nodes, nodes[parent].children, name) else None
  }

  lemma {:induction false} FindChildExact(nodes: Nodes, children: seq<nat>, name: string)
    ensures match FindChild(nodes, children, name)
            case Some(c) => c in nodes && nodes[c].name == name && exists k :: FirstNamed(nodes, children, name, k, c)
            case None => forall c :: c in children && c in nodes ==> nodes[c].name != name
  {
    if |children| > 0 {
      if children[0] in nodes && nodes[children[0]].name == name {
        assert FirstNamed(nodes, children, name, 0, children[0]);
      } else {
        FindChildExact(nodes, children[1..], name);
        var found := FindChild(nodes, children[1..], name);
        if found.Some? {
          var k :| FirstNamed(nodes, children[1..], name, k, found.value);
          assert FirstNamed(nodes, children, name, k + 1, found.value);
        }
      }
    }
  }

  /** `c` is at position `k` of the list, and nothing of that name comes before it. */
  ghost predicate FirstNamed(nodes: Nodes, children: seq<nat>, name: string, k: int, c: nat) {
    && 0 <= k < |children| && children[k] == c
    && forall j :: 0 <= j < k ==> !(children[j] in nodes && nodes[children[j]].name == name)
  }

  /** In a proper tree, lookup answers with the first child of that name, and fails only if there is none. */
  lemma LookupExact(nodes: Nodes, next: nat, parent: nat, name: string)
    requires TreeOk(nodes, next) && parent in nodes
    ensures match LookupChild(nodes, parent, name)
            case Some(c) =>
              && c in nodes && c != ROOT && nodes[c].parent == parent && nodes[c].name == name
              && exists k :: FirstNamed(nodes, nodes[parent].children, name, k, c)
            case None => forall c :: c in nodes && c != ROOT && nodes[c].parent == parent ==> nodes[c].name != name
  {
    FindChildExact(nodes, nodes[parent].children, name);
    match LookupChild(nodes, parent, name) {
      case Some(c) =>
        var k :| FirstNamed(nodes, nodes[parent].children, name, k, c);
        assert Listed(nodes, parent, c);
      case None =>
        forall c | c in nodes && c != ROOT && nodes[c].parent == parent
          ensures nodes[c].name != name
        {
          assert Listed(nodes, parent, c);
        }
    }
  }

  lemma {:induction false} FindChildAppend(nodes: Nodes, children: seq<nat>, c: nat, name: string)
    requires c in nodes && FindChild(nodes, children, name).None?
    ensures FindChild(nodes, children + [c], name) == if nodes[c].name == name then Some(c) else None
  {
    if |children| == 0 {
      assert children + [c] == [c] && [c][1..] == [];
    } else {
      FindChildAppend(nodes, children[1..], c, name);
      assert (children + [c])[1..] == children[1..] + [c];
    }
  }

  lemma {:induction false} FindChildSame(nodes: Nodes, nodes': Nodes, children: seq<nat>, name: string)
    requires forall c :: c in children ==> c in nodes && c in nodes' && nodes'[c].name == nodes[c].name
    ensures FindChild(nodes', children, name) == FindChild(nodes, children, name)
  {
    if |children| > 0 { FindChildSame(nodes, nodes', children[1..], name); }
  }

  /** A node added under a name its parent did not have is what lookup then finds. */
  lemma LookupAdded(nodes: Nodes, next: nat, parent: nat, node: Node)
    requires TreeOk(nodes, next) && parent in nodes && nodes[parent].kind.Dir?
    requires node.parent == parent && node.children == [] && LookupChild(nodes, parent, node.name).None?
    ensures LookupChild(AddNode(nodes, parent, next, node), parent, node.name) == Some(next)
  {
    AddNodeKeepsTree(nodes, next, parent, node);
    var nodes', children := AddNode(nodes, parent, next, node), nodes[parent].children;
    forall c | c in children
      ensures c in nodes
    {
      assert Listed(nodes, parent, c);
    }
    hide AddNode, TreeOk;
    FindChildSame(nodes, nodes', children, node.name);
    FindChildAppend(nodes', children, next, node.name);
  }

  /** Repeated lookup from the root. */
  function Walk(nodes: Nodes, comps: seq<string>): Option<nat> {
    if |comps| == 0 then Some(ROOT) else
    match Walk(nodes, comps[..|comps| - 1])
    case None => None
    case Some(p) => LookupChild(nodes, p, comps[|comps| - 1])
  }

  /** Walking along an inode's own names arrives at it. */
  lemma {:induction false} WalkArrives(nodes: Nodes, next: nat, ino: nat)
    requires TreeOk(nodes, next) && NamesUnique(nodes) && ino in nodes
    ensures Walk(nodes, Parts(nodes, ino)) == Some(ino)
    decreases ino
  {
    assert NodeOk(nodes, next, ino);
    if ino != ROOT {
      var parent := nodes[ino].parent;
      WalkArrives(nodes, next, parent);
      assert Parts(nodes, ino)[..|Parts(nodes, ino)| - 1] == Parts(nodes, parent);
      LookupExact(nodes, next, parent, nodes[ino].name);
      var found := LookupChild(nodes, parent, nodes[ino].name);
      assert SameEntry(nodes, found.value, ino);
    }
  }
}
