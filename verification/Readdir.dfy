/** Paged directory listings. */
module Readdir {
  import opened Basics
  import opened InodeTree

  datatype DirEntry = DirEntry(ino: nat, kind: Kind, name: string)

  datatype Listing = Entries(page: seq<DirEntry>, last: nat) | NoEntry | NotDir

  function ChildEntries(nodes: Nodes, children: seq<nat>): seq<DirEntry>
    requires forall c :: c in children ==> c in nodes
  {
    seq(|children|, k requires 0 <= k < |children| =>
      assert children[k] in children; DirEntry(children[k], nodes[children[k]].kind, nodes[children[k]].name))
  }

  /** Everything a directory lists. */
  function AllEntries(nodes: Nodes, ino: nat): seq<DirEntry>
    requires ino in nodes && forall c :: c in nodes[ino].children ==> c in nodes
  {
    [DirEntry(ino, Dir, "."), DirEntry(nodes[ino].parent, Dir, "..")] + ChildEntries(nodes, nodes[ino].children)
  }

  lemma ChildrenExist(nodes: Nodes, next: nat, ino: nat)
    requires TreeOk(nodes, next) && ino in nodes
    ensures forall c :: c in nodes[ino].children ==> c in nodes
  {
    forall c | c in nodes[ino].children
      ensures c in nodes
    {
      assert Listed(nodes, ino, c);
    }
  }

  /** One `readdir` call with room for `capacity` entries: those from `offset` on that fit, and the
      offset to resume at. */
  method ReadDir(nodes: Nodes, ghost next: nat, ino: nat, offset: nat, capacity: nat) returns (r: Listing)
    requires TreeOk(nodes, next)
    ensures ino !in nodes ==> r == NoEntry
    ensures ino in nodes && nodes[ino].kind.File? ==> r == NotDir
    ensures ino in nodes && nodes[ino].kind.Dir? ==>
      (forall c :: c in nodes[ino].children ==> c in nodes)
      && var all := AllEntries(nodes, ino);
         r == Entries(all[Min(offset, |all|)..Min(offset + capacity, |all|)],
                      Max(offset, Min(offset + capacity, |all|)))
  {
    if ino !in nodes {
      return NoEntry;
    }
    if nodes[ino].kind.File? {
      return NotDir;
    }
    ChildrenExist(nodes, next, ino);
    hide TreeOk;
    var all := AllEntries(nodes, ino);
    var page: seq<DirEntry> := [];
    var i := offset;
    while i < |all| && |page| < capacity
      invariant offset <= i && |page| == i - offset <= capacity
      invariant i <= Max(offset, |all|) && page == all[Min(offset, |all|)..Min(i, |all|)]
      decreases |all| - i
    {
      page := page + [all[i]];
      i := i + 1;
    }
    r := Entries(page, i);
  }

  function Sum(capacities: seq<nat>): nat {
    if |capacities| == 0 then 0 else Sum(capacities[..|capacities| - 1]) + capacities[|capacities| - 1]
  }

  /** Everything the listing of a directory should be: the dot entries, then every child exactly once,
      in child order, and nothing else. */
  lemma AllEntriesExact(nodes: Nodes, next: nat, ino: nat)
    requires TreeOk(nodes, next) && ino in nodes
    ensures forall c :: c in nodes[ino].children ==> c in nodes
    ensures var all, children := AllEntries(nodes, ino), nodes[ino].children;
            && |all| == |children| + 2
            && all[0] == DirEntry(ino, Dir, ".") && all[1] == DirEntry(nodes[ino].parent, Dir, "..")
            && (forall k :: 0 <= k < |children| ==>
                  all[k + 2] == DirEntry(children[k], nodes[children[k]].kind, nodes[children[k]].name))
            && Distinct(children)
            && forall c :: c in children <==> c in nodes && c != ROOT && nodes[c].parent == ino
  {
    ChildrenExist(nodes, next, ino);
    assert NodeOk(nodes, next, ino);
    forall c
      ensures c in nodes[ino].children <==> c in nodes && c != ROOT && nodes[c].parent == ino
    {
      assert Listed(nodes, ino, c);
    }
  }

  /** After a node was added, its directory lists what it listed before and then the new entry. */
  lemma ListingGrows(nodes: Nodes, next: nat, parent: nat, node: Node)
    requires TreeOk(nodes, next) && parent in nodes && nodes[parent].kind.Dir?
    requires node.parent == parent && node.children == []
    ensures forall c :: c in nodes[parent].children ==> c in nodes
    ensures var nodes' := AddNode(nodes, parent, next, node);
            && parent in nodes' && (forall c :: c in nodes'[parent].children ==> c in nodes')
            && AllEntries(nodes', parent) == AllEntries(nodes, parent) + [DirEntry(next, node.kind, node.name)]
  {
    AddNodeKeepsTree(nodes, next, parent, node);
    ChildrenExist(nodes, next, parent);
    ChildrenExist(AddNode(nodes, parent, next, node), next + 1, parent);
    hide TreeOk, AddNode;
    forall c | c in nodes[parent].children
      ensures var e, e' := nodes[c], AddNode(nodes, parent, next, node)[c]; e.kind == e'.kind && e.name == e'.name
    {
    }
  }

  /** Successive calls, each resuming where the last one stopped, with room for `capacities[k]` entries
      in call `k`: together they list the directory up to the room there was, so all of it if the room
      adds up to the number of entries. */
  method PagedListing(nodes: Nodes, ghost next: nat, ino: nat, capacities: seq<nat>) returns (listed: seq<DirEntry>)
    requires TreeOk(nodes, next) && ino in nodes && nodes[ino].kind.Dir?
    ensures forall c :: c in nodes[ino].children ==> c in nodes
    ensures var all := AllEntries(nodes, ino);
            && listed == all[..Min(Sum(capacities), |all|)]
            && (listed == all <==> Sum(capacities) >= |nodes[ino].children| + 2)
  {
    ChildrenExist(nodes, next, ino);
    hide TreeOk, Sum;
    ghost var all := AllEntries(nodes, ino);
    listed := [];
    var offset := 0;
    assert Sum([]) == 0 by { SumEnds(capacities); }
    for k := 0 to |capacities|
      invariant offset == |listed| == Min(Sum(capacities[..k]), |all|) && listed == all[..offset]
    {
      SumStep(capacities, k);
      var r := ReadDir(nodes, next, ino, offset, capacities[k]);
      listed := listed + r.page;
      offset := r.last;
    }
    SumEnds(capacities);
  }

  lemma SumStep(capacities: seq<nat>, k: nat)
    requires k < |capacities|
    ensures Sum(capacities[..k + 1]) == Sum(capacities[..k]) + capacities[k]
  {
    assert capacities[..k + 1][..k] == capacities[..k];
  }

  lemma SumEnds(capacities: seq<nat>)
    ensures Sum([]) == 0 && capacities[..0] == [] && capacities[..|capacities|] == capacities
  {
  }
}
