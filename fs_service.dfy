/**
 * The file-tree service (src/services/base/fsService.ts).  Tree nodes are
 * objects whose `children` the service replaces or splices in place; the
 * service keeps the top-level `nodes` and finds a node by path breadth
 * first.  Each request is logged in `sent`; whether the server acknowledged
 * it (and, for listings, what it answered) is a parameter.
 *
 * The ghost `rank` orders the nodes so that every child ranks below its
 * parent: the node graph is finite and acyclic, which is what makes the
 * breadth-first loop terminate.
 */
module FileTree {
  import opened Wrappers
  import opened JsArrays

  /** `FSEntry`. */
  datatype FsEntry = FsEntry(name: string, path: string, isDir: bool, size: int, mode: int, modTime: int)

  datatype FsAction = List | GetRoot | Rename | Create | Delete | Copy | Move

  datatype FsData =
    | NoData
    | ShowHidden(showHidden: bool)
    | NewName(newName: string)
    | CreateData(name: string, isDir: bool)
    | Dest(dest: string)

  /** A request to the `fs` service. */
  datatype FsRequest = FsRequest(action: FsAction, id: string, data: FsData)

  /** `FSTreeNode`: an entry, its parent, and its children once listed. */
  class FSTreeNode {
    const entry: FsEntry
    const parent: Option<FSTreeNode>
    var children: Option<seq<FSTreeNode>>

    constructor (entry: FsEntry, parent: Option<FSTreeNode>)
      ensures this.entry == entry && this.parent == parent && children == None
    {
      this.entry := entry;
      this.parent := parent;
      children := None;
    }
  }

  /** `node.children ?? []`. */
  function Kids(n: FSTreeNode): seq<FSTreeNode>
    reads n
  {
    if n.children.Some? then n.children.value else []
  }

  /** The first node of `s` with path `path`. */
  function FirstWithPath(s: seq<FSTreeNode>, path: string): (r: Option<FSTreeNode>)
    ensures r.None? <==> forall i :: 0 <= i < |s| ==> s[i].entry.path != path
    ensures r.Some? ==> exists i :: (0 <= i < |s| && s[i] == r.value && r.value.entry.path == path
                                     && forall j :: 0 <= j < i ==> s[j].entry.path != path)
  {
    if s == [] then None
    else if s[0].entry.path == path then Some(s[0])
    else
      var r := FirstWithPath(s[1..], path);
      assert forall i :: 0 < i < |s| ==> s[i] == s[1..][i - 1];
      r
  }

  lemma FirstWithPathSkips(seen: seq<FSTreeNode>, rest: seq<FSTreeNode>, path: string)
    requires forall i :: 0 <= i < |seen| ==> seen[i].entry.path != path
    ensures FirstWithPath(seen + rest, path) == FirstWithPath(rest, path)
  {
    if seen != [] {
      assert (seen + rest)[0] == seen[0];
      assert (seen + rest)[1..] == seen[1..] + rest;
      FirstWithPathSkips(seen[1..], rest, path);
    } else {
      assert seen + rest == rest;
    }
  }

  lemma SameMembers(o: seq<FSTreeNode>, below: set<FSTreeNode>, path: string)
    requires forall n :: n in o <==> n in below
    ensures (forall i :: 0 <= i < |o| ==> o[i].entry.path != path) <==> (forall n :: n in below ==> n.entry.path != path)
    ensures forall i :: 0 <= i < |o| ==> o[i] in below
  {
    forall i | 0 <= i < |o|
      ensures o[i] in below
    {
      assert o[i] in o;
    }
  }

  class FSService {
    var nodes: seq<FSTreeNode>
    var showHidden: bool
    /** Every request issued, in order. */
    var sent: seq<FsRequest>
    /** The nodes the service has made. */
    ghost var Repr: set<FSTreeNode>
    ghost var rank: map<FSTreeNode, nat>

    ghost predicate Valid()
      reads this, Repr
    {
      && Repr == rank.Keys
      && (forall n :: n in nodes ==> n in Repr)
      && (forall n {:trigger n.parent} :: n in Repr && n.parent.Some? ==> n.parent.value in Repr)
      && (forall n, c {:trigger c in Kids(n)} :: n in Repr && c in Kids(n) ==> c in Repr && rank[c] < rank[n])
    }

    /** The four conjuncts of `Valid`, gathered. */
    lemma ValidIntro()
      requires Repr == rank.Keys && (forall n :: n in nodes ==> n in Repr)
      requires forall n {:trigger n.parent} :: n in Repr && n.parent.Some? ==> n.parent.value in Repr
      requires forall n, c {:trigger c in Kids(n)} :: n in Repr && c in Kids(n) ==> c in Repr && rank[c] < rank[n]
      ensures Valid()
    {
    }

    constructor ()
      ensures Valid() && nodes == [] && !showHidden && sent == [] && Repr == {}
    {
      nodes := [];
      showHidden := false;
      sent := [];
      Repr := {};
      rank := map[];
    }

    // -------------------------------------------------------------------
    // Breadth-first order.

    /** The number of nodes below `n`, counting `n` (counting shared nodes once per path). */
    ghost function Size(n: FSTreeNode): nat
      reads this, Repr
      requires Valid() && n in Repr
      decreases rank[n], |Kids(n)| + 1
    {
      1 + KidsSize(n, |Kids(n)|)
    }

    ghost function KidsSize(n: FSTreeNode, i: nat): nat
      reads this, Repr
      requires Valid() && n in Repr && i <= |Kids(n)|
      decreases rank[n], i
    {
      if i == 0 then 0
      else
        assert Kids(n)[i - 1] in Kids(n);
        KidsSize(n, i - 1) + Size(Kids(n)[i - 1])
    }

    ghost function SizeAll(qs: seq<FSTreeNode>): nat
      reads this, Repr
      requires Valid() && forall q :: q in qs ==> q in Repr
    {
      if qs == [] then 0 else Size(qs[0]) + SizeAll(qs[1..])
    }

    lemma SizeAllAppend(a: seq<FSTreeNode>, b: seq<FSTreeNode>)
      requires Valid() && (forall q :: q in a ==> q in Repr) && (forall q :: q in b ==> q in Repr)
      ensures SizeAll(a + b) == SizeAll(a) + SizeAll(b)
    {
      if a != [] {
        assert (a + b)[0] == a[0];
        assert (a + b)[1..] == a[1..] + b;
        SizeAllAppend(a[1..], b);
      } else {
        assert a + b == b;
      }
    }

    lemma SizeAllKids(n: FSTreeNode, i: nat)
      requires Valid() && n in Repr && i <= |Kids(n)|
      ensures forall q :: q in Kids(n)[..i] ==> q in Repr
      ensures SizeAll(Kids(n)[..i]) == KidsSize(n, i)
    {
      forall q | q in Kids(n)[..i]
        ensures q in Repr
      {
        var j :| 0 <= j < i && Kids(n)[j] == q;
        assert Kids(n)[j] in Kids(n);
      }
      if i > 0 {
        assert Kids(n)[i - 1] in Kids(n);
        SizeAllKids(n, i - 1);
        assert Kids(n)[..i] == Kids(n)[..i - 1] + [Kids(n)[i - 1]];
        SizeAllAppend(Kids(n)[..i - 1], [Kids(n)[i - 1]]);
      }
    }

    /** Taking a node off the queue and queueing its children shrinks the queue's size by one. */
    lemma StepShrinks(queue: seq<FSTreeNode>)
      requires Valid() && queue != [] && forall q :: q in queue ==> q in Repr
      ensures forall q :: q in queue[1..] + Kids(queue[0]) ==> q in Repr
      ensures SizeAll(queue[1..] + Kids(queue[0])) == SizeAll(queue) - 1
    {
      SizeAllAppend(queue[1..], Kids(queue[0]));
      SizeAllKids(queue[0], |Kids(queue[0])|);
      assert Kids(queue[0])[..|Kids(queue[0])|] == Kids(queue[0]);
    }

    /** The order in which the loop of `getNodeByPathBFS` takes nodes off a queue starting as `queue`. */
    ghost function Order(queue: seq<FSTreeNode>): seq<FSTreeNode>
      reads this, Repr
      requires Valid() && forall q :: q in queue ==> q in Repr
      decreases SizeAll(queue)
    {
      if queue == [] then []
      else
        StepShrinks(queue);
        [queue[0]] + Order(queue[1..] + Kids(queue[0]))
    }

    /** The nodes below `n`, counting `n`: the reference the breadth-first order is checked against. */
    ghost function Below(n: FSTreeNode): set<FSTreeNode>
      reads this, Repr
      requires Valid() && n in Repr
      decreases rank[n], |Kids(n)| + 1
    {
      {n} + BelowKids(n, |Kids(n)|)
    }

    ghost function BelowKids(n: FSTreeNode, i: nat): set<FSTreeNode>
      reads this, Repr
      requires Valid() && n in Repr && i <= |Kids(n)|
      decreases rank[n], i
    {
      if i == 0 then {}
      else
        assert Kids(n)[i - 1] in Kids(n);
        BelowKids(n, i - 1) + Below(Kids(n)[i - 1])
    }

    ghost function BelowAll(qs: seq<FSTreeNode>): set<FSTreeNode>
      reads this, Repr
      requires Valid() && forall q :: q in qs ==> q in Repr
    {
      if qs == [] then {} else Below(qs[0]) + BelowAll(qs[1..])
    }

    lemma BelowAllAppend(a: seq<FSTreeNode>, b: seq<FSTreeNode>)
      requires Valid() && (forall q :: q in a ==> q in Repr) && (forall q :: q in b ==> q in Repr)
      ensures BelowAll(a + b) == BelowAll(a) + BelowAll(b)
    {
      if a != [] {
        assert (a + b)[0] == a[0];
        assert (a + b)[1..] == a[1..] + b;
        BelowAllAppend(a[1..], b);
      } else {
        assert a + b == b;
      }
    }

    lemma BelowAllKids(n: FSTreeNode, i: nat)
      requires Valid() && n in Repr && i <= |Kids(n)|
      ensures forall q :: q in Kids(n)[..i] ==> q in Repr
      ensures BelowAll(Kids(n)[..i]) == BelowKids(n, i)
    {
      forall q | q in Kids(n)[..i]
        ensures q in Repr
      {
        var j :| 0 <= j < i && Kids(n)[j] == q;
        assert Kids(n)[j] in Kids(n);
      }
      if i > 0 {
        assert Kids(n)[i - 1] in Kids(n);
        BelowAllKids(n, i - 1);
        assert Kids(n)[..i] == Kids(n)[..i - 1] + [Kids(n)[i - 1]];
        BelowAllAppend(Kids(n)[..i - 1], [Kids(n)[i - 1]]);
      }
    }

    /** The breadth-first order visits exactly the nodes below the queue. */
    lemma {:induction false} OrderVisitsAllBelow(queue: seq<FSTreeNode>)
      requires Valid() && forall q :: q in queue ==> q in Repr
      ensures forall n :: n in Order(queue) <==> n in BelowAll(queue)
      decreases SizeAll(queue)
    {
      if queue != [] {
        var q := queue[0];
        var next := queue[1..] + Kids(q);
        StepShrinks(queue);
        OrderVisitsAllBelow(next);
        BelowAllAppend(queue[1..], Kids(q));
        BelowAllKids(q, |Kids(q)|);
        assert Kids(q)[..|Kids(q)|] == Kids(q);
        assert Order(queue) == [q] + Order(next);
      }
    }

    /**
     * `getNodeByPathBFS(path)`: the first node, in breadth-first order from
     * `nodes`, whose path is `path`.
     */
    method GetNodeByPathBFS(path: string) returns (r: Option<FSTreeNode>)
      requires Valid()
      ensures r == FirstWithPath(Order(nodes), path)
    {
      var queue := nodes;
      ghost var seen: seq<FSTreeNode> := [];
      while queue != []
        invariant forall q :: q in queue ==> q in Repr
        invariant Order(nodes) == seen + Order(queue)
        invariant forall i :: 0 <= i < |seen| ==> seen[i].entry.path != path
        decreases SizeAll(queue)
      {
        var node := queue[0];
        OrderStep(queue);
        if node.entry.path == path {
          FirstWithPathSkips(seen, Order(queue), path);
          return Some(node);
        }
        ghost var next := queue[1..] + Kids(node);
        queue := queue[1..];
        if node.children.Some? {
          queue := queue + node.children.value;
        } else {
          assert queue + [] == queue;
        }
        assert queue == next;
        seen := seen + [node];
      }
      FirstWithPathSkips(seen, [], path);
      assert seen + [] == seen;
      return None;
    }

    /** One step of the breadth-first order. */
    lemma OrderStep(queue: seq<FSTreeNode>)
      requires Valid() && queue != [] && forall q :: q in queue ==> q in Repr
      ensures forall q :: q in queue[1..] + Kids(queue[0]) ==> q in Repr
      ensures SizeAll(queue[1..] + Kids(queue[0])) < SizeAll(queue)
      ensures forall seen: seq<FSTreeNode> {:trigger seen + Order(queue)} ::
        seen + Order(queue) == (seen + [queue[0]]) + Order(queue[1..] + Kids(queue[0]))
    {
      StepShrinks(queue);
      assert Order(queue) == [queue[0]] + Order(queue[1..] + Kids(queue[0]));
      forall seen: seq<FSTreeNode>
        ensures seen + Order(queue) == (seen + [queue[0]]) + Order(queue[1..] + Kids(queue[0]))
      {
        assert seen + ([queue[0]] + Order(queue[1..] + Kids(queue[0])))
            == (seen + [queue[0]]) + Order(queue[1..] + Kids(queue[0]));
      }
    }

    /**
     * The lookup finds a node with that path below `nodes` whenever there is
     * one, and only then.
     */
    lemma LookupFindsReachable(path: string)
      requires Valid()
      ensures var r := FirstWithPath(Order(nodes), path);
        && (r.None? <==> forall n :: n in BelowAll(nodes) ==> n.entry.path != path)
        && (r.Some? ==> r.value in BelowAll(nodes) && r.value.entry.path == path)
    {
      OrderVisitsAllBelow(nodes);
      var o := Order(nodes);
      SameMembers(o, BelowAll(nodes), path);
    }

    // -------------------------------------------------------------------
    // Requests and in-place edits.

    /** `dispose()`. */
    method Dispose()
      requires Valid()
      modifies this
      ensures Valid() && nodes == [] && sent == old(sent) && Repr == old(Repr) && showHidden == old(showHidden)
    {
      nodes := [];
    }

    /** `move(node, dest)`. */
    method MoveNode(node: FSTreeNode, dest: string)
      modifies this
      ensures sent == old(sent) + [FsRequest(Move, node.entry.path, Dest(dest))]
      ensures nodes == old(nodes) && Repr == old(Repr) && rank == old(rank) && showHidden == old(showHidden)
    {
      sent := sent + [FsRequest(Move, node.entry.path, Dest(dest))];
    }

    /** `copy(node, dest)`. */
    method CopyNode(node: FSTreeNode, dest: string)
      modifies this
      ensures sent == old(sent) + [FsRequest(Copy, node.entry.path, Dest(dest))]
      ensures nodes == old(nodes) && Repr == old(Repr) && rank == old(rank) && showHidden == old(showHidden)
    {
      sent := sent + [FsRequest(Copy, node.entry.path, Dest(dest))];
    }

    /**
     * `delete(node)`: once the server acknowledges, the node leaves its
     * parent's children; the other children keep their order.
     */
    method DeleteNode(node: FSTreeNode, acked: bool)
      requires Valid()
      modifies this, if node.parent.Some? then {node.parent.value} else {}
      ensures Valid() && nodes == old(nodes) && Repr == old(Repr) && showHidden == old(showHidden)
      ensures sent == old(sent) + [FsRequest(Delete, node.entry.path, NoData)]
      ensures node.parent.Some? ==>
                node.parent.value.children ==
                  if acked && old(node.parent.value.children).Some?
                  then Some(RemoveFirst(old(node.parent.value.children).value, node))
                  else old(node.parent.value.children)
    {
      sent := sent + [FsRequest(Delete, node.entry.path, NoData)];
      ghost var edited: Option<FSTreeNode> := None;
      if acked && node.parent.Some? && node.parent.value.children.Some? {
        var p := node.parent.value;
        var before := p.children.value;
        var after := RemoveFirst(before, node);
        RemoveFirstKeepsOthers(before, node);
        p.children := Some(after);
        edited := Some(p);
      }
      forall n, c {:trigger c in Kids(n)} | n in Repr && c in Kids(n)
        ensures c in Repr && rank[c] < rank[n]
      {
        if edited != Some(n) {
          assert Kids(n) == old(Kids(n));
        }
        assert c in old(Kids(n));
      }
      ValidIntro();
    }

    /**
     * `getChildren(node)`: lists the node and replaces its children by one
     * new node per returned entry, in order, each with `node` as parent.
     */
    method GetChildren(node: FSTreeNode, reply: Option<seq<FsEntry>>)
      requires Valid() && node in Repr
      modifies this, node
      ensures Valid() && nodes == old(nodes) && old(Repr) <= Repr
      ensures sent == old(sent) + [FsRequest(List, node.entry.path, ShowHidden(showHidden))]
      ensures showHidden == old(showHidden)
      ensures reply.None? ==> node.children == old(node.children) && Repr == old(Repr)
      ensures reply.Some? ==>
        && node.children.Some? && |node.children.value| == |reply.value|
        && forall i :: 0 <= i < |reply.value| ==>
             var c := node.children.value[i];
             c.entry == reply.value[i] && c.parent == Some(node) && c.children == None && fresh(c)
    {
      sent := sent + [FsRequest(List, node.entry.path, ShowHidden(showHidden))];
      if reply.Some? {
        var kids := NewChildren(node, reply.value);
        node.children := Some(kids);
        Adopt(node, kids);
      }
    }

    /** Registers the new children of `node` in `Repr`, ranking every old node one higher. */
    ghost method Adopt(node: FSTreeNode, kids: seq<FSTreeNode>)
      requires Repr == rank.Keys && (forall n :: n in nodes ==> n in Repr)
      requires forall n {:trigger n.parent} :: n in Repr && n.parent.Some? ==> n.parent.value in Repr
      requires forall n, c {:trigger c in Kids(n)} :: n in Repr && n != node && c in Kids(n) ==> c in Repr && rank[c] < rank[n]
      requires node in Repr && node.children == Some(kids)
      requires forall k :: k in kids ==> k !in Repr && k.children == None && k.parent == Some(node)
      modifies this
      ensures Valid() && Repr == old(Repr) + set k | k in kids
      ensures nodes == old(nodes) && sent == old(sent) && showHidden == old(showHidden)
    {
      Repr := Repr + set k | k in kids;
      rank := map m | m in Repr :: if m in rank then rank[m] + 1 else 0;
      forall n | n in Repr && n.parent.Some?
        ensures n.parent.value in Repr
      {
        if n in kids {
          assert n.parent.value == node;
        }
      }
      forall n, c {:trigger c in Kids(n)} | n in Repr && c in Kids(n)
        ensures c in Repr && rank[c] < rank[n]
      {
        if n == node {
          assert c in kids;
        }
      }
    }

    /** One new, unlisted node per entry, in order, each with parent `node`. */
    method NewChildren(node: FSTreeNode, es: seq<FsEntry>) returns (kids: seq<FSTreeNode>)
      ensures |kids| == |es|
      ensures forall i :: 0 <= i < |es| ==>
        kids[i].entry == es[i] && kids[i].parent == Some(node) && kids[i].children == None && fresh(kids[i])
    {
      kids := [];
      var i := 0;
      while i < |es|
        invariant i <= |es| && |kids| == i
        invariant forall j :: 0 <= j < i ==>
          kids[j].entry == es[j] && kids[j].parent == Some(node) && kids[j].children == None && fresh(kids[j])
      {
        var c := new FSTreeNode(es[i], Some(node));
        kids := kids + [c];
        i := i + 1;
      }
    }

    /** `getRoot()`: `nodes` becomes the single root node. */
    method GetRootNode(reply: Option<FsEntry>)
      requires Valid()
      modifies this
      ensures Valid() && old(Repr) <= Repr && showHidden == old(showHidden)
      ensures sent == old(sent) + [FsRequest(GetRoot, "/", NoData)]
      ensures reply.None? ==> nodes == old(nodes)
      ensures reply.Some? ==>
        && |nodes| == 1 && nodes[0].entry == reply.value && nodes[0].parent == None
        && nodes[0].children == None && fresh(nodes[0])
    {
      sent := sent + [FsRequest(GetRoot, "/", NoData)];
      if reply.Some? {
        var root := new FSTreeNode(reply.value, None);
        nodes := [root];
        Repr := Repr + {root};
        rank := rank[root := 0];
      }
    }

    /** `create(parent, isDir, name)`: the request, then the parent's children listed afresh. */
    method CreateNode(parent: FSTreeNode, isDir: bool, name: string, join: (string, string) -> string,
                      acked: bool, listing: Option<seq<FsEntry>>)
      requires Valid() && parent in Repr
      modifies this, parent
      ensures Valid() && nodes == old(nodes) && old(Repr) <= Repr && showHidden == old(showHidden)
      ensures acked ==> sent == old(sent) + [FsRequest(Create, join(parent.entry.path, name), CreateData(name, isDir)),
                                             FsRequest(List, parent.entry.path, ShowHidden(showHidden))]
      ensures !acked ==>
                && sent == old(sent) + [FsRequest(Create, join(parent.entry.path, name), CreateData(name, isDir))]
      ensures acked && listing.Some? ==>
        && parent.children.Some? && |parent.children.value| == |listing.value|
        && forall i :: 0 <= i < |listing.value| ==>
             var c := parent.children.value[i];
             c.entry == listing.value[i] && c.parent == Some(parent) && c.children == None && fresh(c)
      ensures !acked || listing.None? ==> parent.children == old(parent.children)
    {
      sent := sent + [FsRequest(Create, join(parent.entry.path, name), CreateData(name, isDir))];
      if acked {
        GetChildren(parent, listing);
      }
    }

    /**
     * `rename(node, newName)`: the request, then the parent's children listed
     * afresh; a node without a parent makes `getChildren` throw.
     */
    method RenameNode(node: FSTreeNode, newName: string, acked: bool, listing: Option<seq<FsEntry>>)
      returns (threw: bool)
      requires Valid() && node in Repr
      modifies this, if node.parent.Some? then {node.parent.value} else {}
      ensures Valid() && nodes == old(nodes) && old(Repr) <= Repr && showHidden == old(showHidden)
      ensures threw <==> acked && node.parent.None?
      ensures acked && !threw ==> sent == old(sent) + [FsRequest(Rename, node.entry.path, NewName(newName)),
                                                       FsRequest(List, node.parent.value.entry.path, ShowHidden(showHidden))]
      ensures !acked || threw ==> sent == old(sent) + [FsRequest(Rename, node.entry.path, NewName(newName))]
      ensures node.parent.Some? && acked && listing.Some? ==>
        var q := node.parent.value;
        && q.children.Some? && |q.children.value| == |listing.value|
        && forall i :: 0 <= i < |listing.value| ==>
             var c := q.children.value[i];
             c.entry == listing.value[i] && c.parent == Some(q) && c.children == None && fresh(c)
      ensures node.parent.Some? && (!acked || listing.None?) ==>
        node.parent.value.children == old(node.parent.value.children)
    {
      sent := sent + [FsRequest(Rename, node.entry.path, NewName(newName))];
      threw := false;
      if acked {
        if node.parent.None? {
          threw := true;
        } else {
          GetChildren(node.parent.value, listing);
        }
      }
    }
  }
}
