/** The tree operations as the kernel performs them on linked nodes. */
module UsbDeviceTree {
  import opened FileBytes
  import opened UsbTree

  /** Whoever hangs below a node hangs below, or is, one of its children. */
  lemma {:induction false} BelowChild(tree: Tree, d: Id, n: Id) returns (c: Id)
    requires WellFormed(tree) && d in tree && Below(tree, d, n)
    ensures n in tree && c in tree[n].children && c in tree && tree[c].parent == Some(n) && (d == c || Below(tree, d, c))
    decreases tree[d].depth
  {
    assert Attached(tree, d);
    if tree[d].parent.value == n {
      c := d;
    } else {
      c := BelowChild(tree, tree[d].parent.value, n);
    }
  }

  lemma UsbThroughChild(tree: Tree, d: Id, n: Id) returns (c: Id)
    requires WellFormed(tree) && UsbBelow(tree, d, n)
    ensures n in tree && c in tree[n].children && c in tree && (tree[c].usb || HasUsbBelow(tree, c))
  {
    c := BelowChild(tree, d, n);
    if d != c {
      assert UsbBelow(tree, d, c);
    }
  }

  lemma ChildBelow(tree: Tree, c: Id, n: Id)
    requires WellFormed(tree) && n in tree && c in tree[n].children
    ensures c in tree && Below(tree, c, n) && tree[c].depth == tree[n].depth + 1
  {
    assert Parents(tree, n);
    assert Attached(tree, c);
  }

  lemma RemovedFrom(children: seq<Id>, i: nat, n: Id)
    requires i < |children|
    ensures Removed(children[i..], n) == (if children[i] == n then [] else [children[i]]) + Removed(children[i + 1..], n)
  {
    assert children[i..][1..] == children[i + 1..];
  }

  lemma NoneRemoved(children: seq<Id>, n: Id)
    requires children == []
    ensures Removed(children, n) == []
  {
  }

  // ---- The sweep of `clear_disconnected_usb_binding` ----

  /** Reached through the first `i` children, or the node itself. */
  ghost predicate ServesFirst(tree: Tree, x: Id, n: Id, i: nat)
    requires WellFormed(tree) && n in tree && x in tree && i <= |tree[n].children|
  {
    x == n || exists k :: 0 <= k < i && ServesChild(tree, x, tree[n].children[k])
  }

  ghost predicate ServesChild(tree: Tree, x: Id, c: Id)
    requires WellFormed(tree) && x in tree
  {
    c in tree && !tree[c].usb && Serves(tree, x, c)
  }

  ghost function Swept(tree: Tree, n: Id, i: nat, data: nat): Tree
    requires WellFormed(tree) && n in tree && i <= |tree[n].children|
  {
    map x | x in tree :: if ServesFirst(tree, x, n, i) && tree[x].driver == Some(data) then Mark(tree[x]) else tree[x]
  }

  ghost function SweptAll(tree: Tree, n: Id, data: nat): Tree
    requires WellFormed(tree) && n in tree
  {
    map x | x in tree :: if Serves(tree, x, n) && tree[x].driver == Some(data) then Mark(tree[x]) else tree[x]
  }

  lemma {:induction false} ServesThroughChild(tree: Tree, x: Id, n: Id)
    requires WellFormed(tree) && x in tree && n in tree
    ensures Serves(tree, x, n) <==> ServesFirst(tree, x, n, |tree[n].children|)
    decreases tree[x].depth
  {
    assert Attached(tree, x) && Parents(tree, n);
    var children := tree[n].children;
    if x != n && Serves(tree, x, n) {
      var p := tree[x].parent.value;
      ServesThroughChild(tree, p, n);
      if p == n {
        var k :| 0 <= k < |children| && children[k] == x;
        assert ServesChild(tree, x, children[k]);
      } else {
        var k :| 0 <= k < |children| && ServesChild(tree, p, children[k]);
        assert ServesChild(tree, x, children[k]);
      }
    }
    if x != n && ServesFirst(tree, x, n, |children|) {
      var k :| 0 <= k < |children| && ServesChild(tree, x, children[k]);
      ServesUp(tree, x, children[k], n);
    }
  }

  lemma {:induction false} ServesUp(tree: Tree, x: Id, c: Id, n: Id)
    requires WellFormed(tree) && x in tree && n in tree && c in tree[n].children && ServesChild(tree, x, c)
    ensures Serves(tree, x, n)
    decreases tree[x].depth
  {
    assert Attached(tree, x) && Parents(tree, n);
    if x != c {
      ServesUp(tree, tree[x].parent.value, c, n);
    }
  }

  lemma {:induction false} ShapeServes(tree: Tree, tree': Tree, x: Id, n: Id)
    requires WellFormed(tree) && SameShape(tree, tree') && WellFormed(tree') && x in tree
    ensures Serves(tree', x, n) <==> Serves(tree, x, n)
    decreases tree[x].depth
  {
    assert Attached(tree, x);
    if x != n && !tree[x].usb && tree[x].parent.Some? {
      ShapeServes(tree, tree', tree[x].parent.value, n);
    }
  }

  /** Sweeping the next child after the first ones. */
  lemma SweptNext(tree: Tree, n: Id, i: nat, data: nat)
    requires WellFormed(tree) && n in tree && i < |tree[n].children|
    requires var now := Swept(tree, n, i, data); WellFormed(now) && SameShape(tree, now)
    ensures var c, now := tree[n].children[i], Swept(tree, n, i, data);
      c in tree && Swept(tree, n, i + 1, data) == if tree[c].usb then now else SweptAll(now, c, data)
  {
    assert Parents(tree, n);
    var c, now := tree[n].children[i], Swept(tree, n, i, data);
    forall x | x in tree
      ensures Swept(tree, n, i + 1, data)[x] == (if tree[c].usb then now[x] else SweptAll(now, c, data)[x])
    {
      SweptNextAt(tree, n, i, data, x);
    }
  }

  lemma SweptNextAt(tree: Tree, n: Id, i: nat, data: nat, x: Id)
    requires WellFormed(tree) && n in tree && i < |tree[n].children| && tree[n].children[i] in tree && x in tree
    requires var now := Swept(tree, n, i, data); WellFormed(now) && SameShape(tree, now)
    ensures var c, now := tree[n].children[i], Swept(tree, n, i, data);
      Swept(tree, n, i + 1, data)[x] == (if tree[c].usb then now[x] else SweptAll(now, c, data)[x])
  {
    hide Serves, ServesFirst, Attached, Parents;
    ShapeServes(tree, Swept(tree, n, i, data), x, tree[n].children[i]);
    ServesOneMore(tree, x, n, i);
  }

  lemma ServesOneMore(tree: Tree, x: Id, n: Id, i: nat)
    requires WellFormed(tree) && x in tree && n in tree && i < |tree[n].children|
    ensures ServesFirst(tree, x, n, i + 1) <==> ServesFirst(tree, x, n, i) || ServesChild(tree, x, tree[n].children[i])
  {
  }

  lemma SweptShape(tree: Tree, n: Id, i: nat, data: nat)
    requires WellFormed(tree) && n in tree && i <= |tree[n].children|
    ensures SameShape(tree, Swept(tree, n, i, data)) && WellFormed(Swept(tree, n, i, data))
  {
    ShapeWellFormed(tree, Swept(tree, n, i, data));
  }

  lemma SweptStart(tree: Tree, n: Id, data: nat)
    requires WellFormed(tree) && n in tree
    ensures Swept(tree, n, 0, data) == if tree[n].driver == Some(data) then tree[n := Mark(tree[n])] else tree
  {
  }

  lemma SweptWhole(tree: Tree, n: Id, data: nat)
    requires WellFormed(tree) && n in tree
    ensures Swept(tree, n, |tree[n].children|, data) == SweptAll(tree, n, data)
  {
    forall x | x in tree ensures Swept(tree, n, |tree[n].children|, data)[x] == SweptAll(tree, n, data)[x] {
      ServesThroughChild(tree, x, n);
    }
  }

  class DeviceTree {
    var nodes: Tree
    ghost var limit: nat

    ghost predicate Valid()
      reads this
    {
      WellFormed(nodes) && forall x :: x in nodes ==> nodes[x].depth <= limit
    }

    /** A tree that holds only its root. */
    constructor (root: Id)
      ensures Valid() && Good(nodes) && nodes.Keys == {root}
    {
      nodes := map[root := Node(false, None, [], None, false, 0)];
      limit := 0;
    }

    /** `find_reusable_usb_device`: the first child of that name which is a USB device and not marked. */
    method FindReusable(parent: Id, named: set<Id>) returns (found: Option<Id>)
      requires Valid() && parent in nodes
      ensures found.Some? ==> found.value in nodes[parent].children && Reusable(nodes, named, found.value)
      ensures found.None? ==> forall c :: c in nodes[parent].children ==> !Reusable(nodes, named, c)
      ensures forall i :: 0 <= i < |nodes[parent].children| && Reusable(nodes, named, nodes[parent].children[i]) ==>
        exists k :: 0 <= k <= i && found == Some(nodes[parent].children[k])
    {
      hide Attached;
      assert Parents(nodes, parent);
      var children := nodes[parent].children;
      var i := 0;
      while i < |children|
        invariant i <= |children| && forall k :: 0 <= k < i ==> !Reusable(nodes, named, children[k])
      {
        var child := nodes[children[i]];
        if child.usb && children[i] in named && !(child.driver.None? && child.disconnected) {
          return Some(children[i]);
        }
        i := i + 1;
      }
      found := None;
    }

    /**
     `RegisterUSBDevice`: a reusable child is bound again if a driver is named, otherwise a new device is appended.
     `named` are the nodes that carry the name.
     */
    method RegisterUsbDevice(parent: Id, id: Id, named: set<Id>, bind: bool, driver: Option<nat>) returns (node: Id)
      requires Valid() && parent in nodes && id !in nodes
      modifies this
      ensures Valid()
      ensures node != id ==>
        && node in old(nodes)[parent].children && Reusable(old(nodes), named, node)
        && nodes == DoRebind(old(nodes), node, bind, driver)
      ensures node == id ==>
        && (forall c :: c in old(nodes)[parent].children ==> !Reusable(old(nodes), named, c))
        && nodes == Appended(old(nodes), parent, id, true, if bind then driver else None)
    {
      hide Attached, Parents;
      var found := FindReusable(parent, named);
      if found.Some? {
        node := found.value;
        if bind {
          assert SameShape(nodes, DoRebind(nodes, node, bind, driver));
          ShapeWellFormed(nodes, DoRebind(nodes, node, bind, driver));
          nodes := nodes[node := nodes[node].(driver := driver, disconnected := false)];
        }
        return;
      }
      node := id;
      AppendedWellFormed(nodes, parent, id, true, if bind then driver else None);
      limit := limit + 1;
      nodes := nodes[parent := nodes[parent].(children := nodes[parent].children + [id])];
      nodes := nodes[id := Node(true, Some(parent), [], if bind then driver else None, false, nodes[parent].depth + 1)];
    }

    /** `has_usb_device_descendant`: depth first, children in order. */
    method HasUsbDescendant(n: Id) returns (found: bool)
      requires Valid() && n in nodes
      ensures found <==> HasUsbBelow(nodes, n)
      decreases limit - nodes[n].depth
    {
      hide Attached, Parents;
      var children := nodes[n].children;
      var i := 0;
      while i < |children|
        invariant i <= |children|
        invariant forall k :: 0 <= k < i ==> children[k] in nodes && !nodes[children[k]].usb && !HasUsbBelow(nodes, children[k])
      {
        var c := children[i];
        ChildBelow(nodes, c, n);
        if nodes[c].usb {
          assert UsbBelow(nodes, c, n);
          return true;
        }
        var below := HasUsbDescendant(c);
        if below {
          ghost var d :| UsbBelow(nodes, d, c);
          BelowTransitive(nodes, d, c, n);
          assert UsbBelow(nodes, d, n);
          return true;
        }
        i := i + 1;
      }
      forall d ensures !UsbBelow(nodes, d, n) {
        if UsbBelow(nodes, d, n) {
          var c := UsbThroughChild(nodes, d, n);
        }
      }
      return false;
    }

    /** The nodes `release_device_subtree` frees. */
    method Collect(n: Id) returns (region: set<Id>)
      requires Valid() && n in nodes
      ensures region == Region(nodes, n)
      decreases limit - nodes[n].depth
    {
      hide Attached, Parents;
      region := {n};
      var children := nodes[n].children;
      var i := 0;
      while i < |children|
        invariant i <= |children| && n in region && region <= Region(nodes, n)
        invariant forall k :: 0 <= k < i ==> Region(nodes, children[k]) <= region
      {
        var c := children[i];
        ChildBelow(nodes, c, n);
        var below := Collect(c);
        forall x | x in below ensures x in Region(nodes, n) {
          if x != c { BelowTransitive(nodes, x, c, n); }
        }
        region := region + below;
        i := i + 1;
      }
      forall x | x in Region(nodes, n) ensures x in region {
        if x != n {
          var c := BelowChild(nodes, x, n);
          assert x in Region(nodes, c);
        }
      }
    }

    /** `detach_child`'s walk along the siblings. */
    method DetachFrom(children: seq<Id>, n: Id) returns (rest: seq<Id>)
      ensures rest == Removed(children, n)
    {
      hide Removed;
      rest := [];
      assert children[0..] == children;
      var i := 0;
      while i < |children|
        invariant i <= |children| && rest + Removed(children[i..], n) == Removed(children, n)
      {
        RemovedFrom(children, i, n);
        if children[i] != n {
          rest := rest + [children[i]];
        }
        i := i + 1;
      }
      NoneRemoved(children[i..], n);
    }

    /** Detaches the node and releases everything below it. */
    method CutNode(n: Id)
      requires Valid() && n in nodes
      modifies this`nodes
      ensures Valid() && nodes == Cut(old(nodes), n)
    {
      hide Below, Removed;
      CutWellFormed(nodes, n);
      var region := Collect(n);
      var p := nodes[n].parent;
      var kept := nodes;
      if p.Some? {
        assert Attached(nodes, n);
        var rest := DetachFrom(nodes[p.value].children, n);
        kept := nodes[p.value := nodes[p.value].(children := rest)];
      }
      nodes := map x | x in kept && x !in region :: kept[x];
      assert nodes == Cut(old(nodes), n);
    }

    /** `prune_disconnected_usb_ancestors`: the loop climbs one level per turn. */
    method Prune(start: Option<Id>)
      requires Valid() && (start.Some? ==> start.value in nodes)
      modifies this`nodes
      ensures Valid() && nodes == Pruned(old(nodes), start)
    {
      hide Below, Cut, HasUsbBelow;
      var current := start;
      while current.Some?
        invariant Valid() && (current.Some? ==> current.value in nodes)
        invariant Pruned(nodes, current) == Pruned(old(nodes), start)
        decreases if current.Some? then nodes[current.value].depth + 1 else 0
      {
        var c := current.value;
        assert Attached(nodes, c);
        var needed := HasUsbDescendant(c);
        if !nodes[c].usb || !Deferred(nodes[c]) || needed {
          current := nodes[c].parent;
        } else {
          var parent := nodes[c].parent;
          if parent.None? {
            return;
          }
          ParentStays(nodes, c);
          CutMarks(nodes, c);
          CutNode(c);
          current := parent;
        }
      }
    }

    /** `clear_disconnected_usb_binding`, below a node whose driver data is being cleared. */
    method ClearBinding(n: Id, data: nat)
      requires Valid() && n in nodes
      modifies this`nodes
      ensures Valid() && nodes == SweptAll(old(nodes), n, data) && SameShape(old(nodes), nodes)
      decreases limit - nodes[n].depth
    {
      hide Attached, Parents, Swept, SweptAll;
      ghost var tree := nodes;
      var children := nodes[n].children;
      SweptShape(tree, n, 0, data);
      SweptStart(tree, n, data);
      if nodes[n].driver == Some(data) {
        nodes := nodes[n := Mark(nodes[n])];
      }
      var i := 0;
      while i < |children|
        invariant i <= |children| && Valid() && SameShape(tree, nodes) && nodes == Swept(tree, n, i, data)
      {
        var c := children[i];
        SweptShape(tree, n, i, data);
        SweptNext(tree, n, i, data);
        SweptShape(tree, n, i + 1, data);
        ChildBelow(tree, c, n);
        if !nodes[c].usb {
          ClearBinding(c, data);
        }
        i := i + 1;
      }
      SweptWhole(tree, n, data);
    }

    /** `RemoveUSBDevice`. */
    method RemoveUsbDevice(n: Id) returns (found: bool)
      requires Valid()
      modifies this`nodes
      ensures Valid() && nodes == DoRemove(old(nodes), n)
      ensures found <==> n in old(nodes) && old(nodes)[n].usb && old(nodes)[n].parent.Some?
    {
      hide Below, Cut, HasUsbBelow, Pruned, Serves;
      if n !in nodes || !nodes[n].usb || nodes[n].parent.None? {
        return false;
      }
      var needed := HasUsbDescendant(n);
      if needed {
        var data := nodes[n].driver;
        ServesSelf(nodes, n);
        if data.None? {
          nodes := nodes[n := Mark(nodes[n])];
          assert nodes == Cleared(old(nodes), n);
          ShapeWellFormed(old(nodes), nodes);
        } else {
          ClearBinding(n, data.value);
          assert nodes == Cleared(old(nodes), n);
        }
        return true;
      }
      var parent := nodes[n].parent;
      ParentStays(nodes, n);
      CutNode(n);
      Prune(parent);
      return true;
    }
  }

  lemma ServesSelf(tree: Tree, n: Id)
    requires WellFormed(tree) && n in tree
    ensures Serves(tree, n, n)
  {
  }
}
