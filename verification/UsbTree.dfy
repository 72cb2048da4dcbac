/**
 The USB part of the device tree (`mecocoa/devsman-usb.cpp`): a device that is unplugged while other USB
 devices hang below it is only marked; it goes away when the last of them does.
 */
module UsbTree {
  import opened FileBytes
  import opened Counting

  type Id = nat

  /**
   `driver` is the binding's driver data and `disconnected` the special probe result. `depth` is the
   distance from the root, which never changes while a node is attached.
   */
  datatype Node = Node(usb: bool, parent: Option<Id>, children: seq<Id>, driver: Option<nat>, disconnected: bool, depth: nat)

  type Tree = map<Id, Node>

  /** `is_deferred_disconnected_usb_device`. */
  predicate Deferred(n: Node) {
    n.usb && n.driver.None? && n.disconnected
  }

  // ---- Shape ----

  predicate Attached(tree: Tree, x: Id)
    requires x in tree
  {
    tree[x].parent.Some? ==>
      && tree[x].parent.value in tree
      && tree[x].depth == tree[tree[x].parent.value].depth + 1
      && x in tree[tree[x].parent.value].children
  }

  predicate Parents(tree: Tree, x: Id)
    requires x in tree
  {
    forall c :: c in tree[x].children ==> c in tree && tree[c].parent == Some(x)
  }

  ghost predicate WellFormed(tree: Tree) {
    (forall x :: x in tree ==> Attached(tree, x)) && (forall x :: x in tree ==> Parents(tree, x))
  }

  /** `d` hangs somewhere below `a`. */
  ghost predicate Below(tree: Tree, d: Id, a: Id)
    requires WellFormed(tree) && d in tree
    decreases tree[d].depth
  {
    assert Attached(tree, d);
    tree[d].parent.Some? && (tree[d].parent.value == a || Below(tree, tree[d].parent.value, a))
  }

  ghost predicate UsbBelow(tree: Tree, d: Id, a: Id)
    requires WellFormed(tree)
  {
    d in tree && tree[d].usb && Below(tree, d, a)
  }

  ghost predicate HasUsbBelow(tree: Tree, a: Id)
    requires WellFormed(tree)
  {
    exists d :: UsbBelow(tree, d, a)
  }

  /** A marked device is only kept for the USB devices below it. */
  ghost predicate KeptForOthers(tree: Tree, x: Id)
    requires WellFormed(tree) && x in tree
  {
    Deferred(tree[x]) ==> HasUsbBelow(tree, x)
  }

  /** Nothing is marked at the root. */
  predicate MarkedBelowRoot(n: Node) {
    Deferred(n) ==> n.parent.Some?
  }

  ghost predicate Good(tree: Tree) {
    && WellFormed(tree)
    && (forall x :: x in tree ==> KeptForOthers(tree, x))
    && (forall x :: x in tree ==> MarkedBelowRoot(tree[x]))
  }

  // ---- Removing a subtree ----

  ghost function Region(tree: Tree, n: Id): set<Id>
    requires WellFormed(tree)
  {
    set x | x in tree && (x == n || Below(tree, x, n))
  }

  function Removed(children: seq<Id>, n: Id): seq<Id> {
    if children == [] then [] else (if children[0] == n then [] else [children[0]]) + Removed(children[1..], n)
  }

  lemma {:induction false} RemovedMembers(children: seq<Id>, n: Id, c: Id)
    ensures c in Removed(children, n) <==> c in children && c != n
    decreases |children|
  {
    if children != [] {
      RemovedMembers(children[1..], n, c);
    }
  }

  /** `detach_child` and `release_device_subtree`. */
  ghost function Cut(tree: Tree, n: Id): Tree
    requires WellFormed(tree) && n in tree
  {
    var p := tree[n].parent;
    map x | x in tree && x !in Region(tree, n) ::
      if Some(x) == p then tree[x].(children := Removed(tree[x].children, n)) else tree[x]
  }

  lemma {:induction false} BelowDepth(tree: Tree, d: Id, a: Id)
    requires WellFormed(tree) && d in tree && Below(tree, d, a)
    ensures a in tree && tree[a].depth < tree[d].depth
    decreases tree[d].depth
  {
    assert Attached(tree, d);
    if tree[d].parent.value != a {
      BelowDepth(tree, tree[d].parent.value, a);
    }
  }

  lemma {:induction false} BelowTransitive(tree: Tree, d: Id, m: Id, a: Id)
    requires WellFormed(tree) && d in tree && m in tree && Below(tree, d, m) && Below(tree, m, a)
    ensures Below(tree, d, a)
    decreases tree[d].depth
  {
    assert Attached(tree, d);
    if tree[d].parent.value != m {
      BelowTransitive(tree, tree[d].parent.value, m, a);
    }
  }

  lemma CutWellFormed(tree: Tree, n: Id)
    requires WellFormed(tree) && n in tree
    ensures WellFormed(Cut(tree, n))
  {
    hide Below;
    var tree' := Cut(tree, n);
    forall x | x in tree' ensures Attached(tree', x) { CutAttached(tree, n, x); }
    forall x | x in tree' ensures Parents(tree', x) { CutParents(tree, n, x); }
  }

  lemma CutAttached(tree: Tree, n: Id, x: Id)
    requires WellFormed(tree) && n in tree && x in Cut(tree, n)
    ensures Attached(Cut(tree, n), x)
  {
    assert Attached(tree, x);
    if tree[x].parent.Some? {
      RemovedMembers(tree[tree[x].parent.value].children, n, x);
    }
  }

  lemma CutParents(tree: Tree, n: Id, x: Id)
    requires WellFormed(tree) && n in tree && x in Cut(tree, n)
    ensures Parents(Cut(tree, n), x)
  {
    assert Parents(tree, x) && Attached(tree, n);
    forall c | c in Cut(tree, n)[x].children ensures c in Cut(tree, n) && Cut(tree, n)[c].parent == Some(x) {
      RemovedMembers(tree[x].children, n, c);
      assert c in tree[x].children;
      assert Attached(tree, c);
    }
  }

  /** What is left keeps its place. */
  lemma {:induction false} CutBelow(tree: Tree, n: Id, d: Id, a: Id)
    requires WellFormed(tree) && n in tree && d in Cut(tree, n) && WellFormed(Cut(tree, n))
    ensures Below(Cut(tree, n), d, a) <==> Below(tree, d, a)
    decreases tree[d].depth
  {
    assert Attached(tree, d);
    if tree[d].parent.Some? {
      CutAttached(tree, n, d);
      CutBelow(tree, n, tree[d].parent.value, a);
    }
  }

  // ---- Pruning upwards ----

  lemma ParentStays(tree: Tree, n: Id)
    requires WellFormed(tree) && n in tree && tree[n].parent.Some?
    ensures tree[n].parent.value in Cut(tree, n)
    ensures tree[n].parent.value in tree && tree[tree[n].parent.value].depth < tree[n].depth
  {
    var p := tree[n].parent.value;
    assert Attached(tree, n);
    if Below(tree, p, n) {
      BelowDepth(tree, p, n);
      assert false;
    }
  }

  /** `prune_disconnected_usb_ancestors`, from `current` to the root. */
  ghost function Pruned(tree: Tree, current: Option<Id>): Tree
    requires WellFormed(tree) && (current.Some? ==> current.value in tree)
    decreases if current.Some? then tree[current.value].depth + 1 else 0
  {
    if current.None? then tree
    else
      var c := current.value;
      assert Attached(tree, c);
      if !Deferred(tree[c]) || HasUsbBelow(tree, c) then Pruned(tree, tree[c].parent)
      else if tree[c].parent.None? then tree
      else
        CutWellFormed(tree, c);
        ParentStays(tree, c);
        Pruned(Cut(tree, c), tree[c].parent)
  }

  ghost predicate Violates(tree: Tree, x: Id)
    requires WellFormed(tree)
  {
    x in tree && Deferred(tree[x]) && !HasUsbBelow(tree, x)
  }

  /** Whatever is kept for nothing lies on the way from `current` to the root. */
  ghost predicate ViolationsOnWay(tree: Tree, current: Option<Id>)
    requires WellFormed(tree) && (current.Some? ==> current.value in tree)
  {
    forall x :: Violates(tree, x) ==> current.Some? && (x == current.value || Below(tree, current.value, x))
  }

  /** Cutting a device with no USB device below it can only strand the marked devices above it. */
  lemma CutStrands(tree: Tree, n: Id, x: Id)
    requires WellFormed(tree) && n in tree && !HasUsbBelow(tree, n) && WellFormed(Cut(tree, n))
    requires x in Cut(tree, n) && HasUsbBelow(tree, x) && !HasUsbBelow(Cut(tree, n), x)
    ensures Below(tree, n, x)
  {
    var d :| UsbBelow(tree, d, x);
    if d in Cut(tree, n) {
      KeptUsbBelow(tree, n, d, x);
    } else if d != n {
      RegionUsb(tree, n, d);
    }
  }

  lemma KeptUsbBelow(tree: Tree, n: Id, d: Id, x: Id)
    requires WellFormed(tree) && n in tree && WellFormed(Cut(tree, n)) && d in Cut(tree, n) && UsbBelow(tree, d, x)
    ensures HasUsbBelow(Cut(tree, n), x)
  {
    CutBelow(tree, n, d, x);
    assert UsbBelow(Cut(tree, n), d, x);
  }

  lemma RegionUsb(tree: Tree, n: Id, d: Id)
    requires WellFormed(tree) && n in tree && d in tree && tree[d].usb && d != n && d !in Cut(tree, n)
    ensures HasUsbBelow(tree, n)
  {
    assert UsbBelow(tree, d, n);
  }

  lemma NoViolations(tree: Tree)
    requires Good(tree)
    ensures forall x :: !Violates(tree, x)
  {
    forall x ensures !Violates(tree, x) {
      assert x in tree ==> KeptForOthers(tree, x);
    }
  }

  lemma CutViolations(tree: Tree, n: Id)
    requires WellFormed(tree) && n in tree && tree[n].parent.Some? && !HasUsbBelow(tree, n)
    requires forall x :: Violates(tree, x) ==> x == n || Below(tree, n, x)
    ensures WellFormed(Cut(tree, n)) && tree[n].parent.value in Cut(tree, n)
    ensures ViolationsOnWay(Cut(tree, n), tree[n].parent)
  {
    CutWellFormed(tree, n);
    ParentStays(tree, n);
    var tree', p := Cut(tree, n), tree[n].parent.value;
    forall x | Violates(tree', x) ensures x == p || Below(tree', p, x) {
      if HasUsbBelow(tree, x) {
        CutStrands(tree, n, x);
      } else {
        assert Violates(tree, x);
      }
      CutBelow(tree, n, p, x);
    }
  }

  /** What pruning and cutting may take: the named node, marked devices, and nothing else that is a USB device. */
  ghost predicate Spares(tree: Tree, tree': Tree, n: Option<Id>) {
    forall x :: x in tree && tree[x].usb && !Deferred(tree[x]) && Some(x) != n ==>
      x in tree' && tree'[x].usb && !Deferred(tree'[x])
  }

  lemma CutSpares(tree: Tree, n: Id)
    requires WellFormed(tree) && n in tree && !HasUsbBelow(tree, n)
    ensures Spares(tree, Cut(tree, n), Some(n))
  {
    forall x | x in tree && tree[x].usb && x != n ensures x in Cut(tree, n) {
      assert !UsbBelow(tree, x, n);
    }
  }

  lemma {:induction false} PrunedGood(tree: Tree, current: Option<Id>)
    requires WellFormed(tree) && (current.Some? ==> current.value in tree) && ViolationsOnWay(tree, current)
    requires forall x :: x in tree ==> MarkedBelowRoot(tree[x])
    ensures Good(Pruned(tree, current)) && Spares(tree, Pruned(tree, current), None)
    decreases if current.Some? then tree[current.value].depth + 1 else 0
  {
    hide HasUsbBelow;
    if current.None? {
      forall x | x in tree ensures KeptForOthers(tree, x) { assert !Violates(tree, x); }
    } else {
      var c := current.value;
      assert Attached(tree, c);
      if !Deferred(tree[c]) || HasUsbBelow(tree, c) {
        assert !Violates(tree, c);
        PrunedGood(tree, tree[c].parent);
      } else {
        assert MarkedBelowRoot(tree[c]);
        CutViolations(tree, c);
        ParentStays(tree, c);
        CutSpares(tree, c);
        PrunedGood(Cut(tree, c), tree[c].parent);
      }
    }
  }

  // ---- Marking ----

  /** Reached from `n` without passing another USB device. */
  ghost predicate Serves(tree: Tree, x: Id, n: Id)
    requires WellFormed(tree) && x in tree
    decreases tree[x].depth
  {
    assert Attached(tree, x);
    x == n || (!tree[x].usb && tree[x].parent.Some? && Serves(tree, tree[x].parent.value, n))
  }

  function Mark(node: Node): Node {
    node.(driver := None, disconnected := true)
  }

  /** `clear_disconnected_usb_binding` with the node's own driver data. */
  ghost function Cleared(tree: Tree, n: Id): Tree
    requires WellFormed(tree) && n in tree
  {
    var data := tree[n].driver;
    map x | x in tree ::
      if x == n || (data.Some? && Serves(tree, x, n) && tree[x].driver == data) then Mark(tree[x]) else tree[x]
  }

  predicate SameShape(tree: Tree, tree': Tree) {
    tree'.Keys == tree.Keys &&
    forall x :: x in tree ==> tree'[x].(driver := tree[x].driver, disconnected := tree[x].disconnected) == tree[x]
  }

  lemma ShapeWellFormed(tree: Tree, tree': Tree)
    requires WellFormed(tree) && SameShape(tree, tree')
    ensures WellFormed(tree')
  {
    forall x | x in tree' ensures Attached(tree', x) && Parents(tree', x) {
      assert Attached(tree, x) && Parents(tree, x);
    }
  }

  lemma {:induction false} ShapeBelow(tree: Tree, tree': Tree, d: Id, a: Id)
    requires WellFormed(tree) && SameShape(tree, tree') && WellFormed(tree') && d in tree
    ensures Below(tree', d, a) <==> Below(tree, d, a)
    decreases tree[d].depth
  {
    assert Attached(tree, d);
    if tree[d].parent.Some? {
      ShapeBelow(tree, tree', tree[d].parent.value, a);
    }
  }

  lemma ShapeUsbBelow(tree: Tree, tree': Tree, a: Id)
    requires WellFormed(tree) && SameShape(tree, tree') && WellFormed(tree') && HasUsbBelow(tree, a)
    ensures HasUsbBelow(tree', a)
  {
    var d :| UsbBelow(tree, d, a);
    ShapeBelow(tree, tree', d, a);
    assert UsbBelow(tree', d, a);
  }

  lemma {:induction false} ServesPlain(tree: Tree, x: Id, n: Id)
    requires WellFormed(tree) && x in tree && Serves(tree, x, n)
    ensures x == n || !tree[x].usb
  {
  }

  lemma ClearedGood(tree: Tree, n: Id)
    requires Good(tree) && n in tree && tree[n].usb && tree[n].parent.Some? && HasUsbBelow(tree, n)
    ensures Good(Cleared(tree, n)) && Deferred(Cleared(tree, n)[n]) && Spares(tree, Cleared(tree, n), Some(n))
    ensures Cleared(tree, n).Keys == tree.Keys
  {
    hide HasUsbBelow;
    var tree' := Cleared(tree, n);
    assert SameShape(tree, tree');
    ShapeWellFormed(tree, tree');
    forall x | x in tree && tree[x].usb && x != n ensures tree'[x] == tree[x] {
      if Serves(tree, x, n) { ServesPlain(tree, x, n); }
    }
    forall x | x in tree' ensures KeptForOthers(tree', x) && MarkedBelowRoot(tree'[x]) {
      assert KeptForOthers(tree, x) && MarkedBelowRoot(tree[x]);
      if HasUsbBelow(tree, x) { ShapeUsbBelow(tree, tree', x); }
    }
  }

  // ---- The operations ----

  /** `RemoveUSBDevice`. */
  ghost function DoRemove(tree: Tree, n: Id): Tree
    requires WellFormed(tree)
  {
    if n !in tree || !tree[n].usb || tree[n].parent.None? then tree
    else if HasUsbBelow(tree, n) then Cleared(tree, n)
    else
      CutWellFormed(tree, n);
      ParentStays(tree, n);
      Pruned(Cut(tree, n), tree[n].parent)
  }

  /** A new node at the end of the parent's children. */
  function Appended(tree: Tree, p: Id, id: Id, usb: bool, driver: Option<nat>): Tree
    requires p in tree && id !in tree
  {
    tree[p := tree[p].(children := tree[p].children + [id])][id := Node(usb, Some(p), [], driver, false, tree[p].depth + 1)]
  }

  /** A USB device of that name which is not marked. */
  predicate Reusable(tree: Tree, named: set<Id>, c: Id) {
    c in tree && tree[c].usb && c in named && !Deferred(tree[c])
  }

  /** `RegisterUSBDevice`: an existing child that is not marked is bound again; `bind` says whether a driver is named. */
  function DoRebind(tree: Tree, id: Id, bind: bool, driver: Option<nat>): Tree {
    if id !in tree || Deferred(tree[id]) || !bind then tree
    else tree[id := tree[id].(driver := driver, disconnected := false)]
  }

  datatype Action =
    | Register(parent: Id, id: Id, driver: Option<nat>)
    | Rebind(id: Id, bind: bool, driver: Option<nat>)
    | AddPlain(parent: Id, id: Id, driver: Option<nat>)
    | Remove(id: Id)

  ghost function Apply(tree: Tree, a: Action): Tree
    requires WellFormed(tree)
  {
    match a
    case Register(p, id, driver) => if p in tree && id !in tree then Appended(tree, p, id, true, driver) else tree
    case Rebind(id, bind, driver) => DoRebind(tree, id, bind, driver)
    case AddPlain(p, id, driver) => if p in tree && id !in tree then Appended(tree, p, id, false, driver) else tree
    case Remove(id) => DoRemove(tree, id)
  }

  lemma AppendedWellFormed(tree: Tree, p: Id, id: Id, usb: bool, driver: Option<nat>)
    requires WellFormed(tree) && p in tree && id !in tree
    ensures WellFormed(Appended(tree, p, id, usb, driver))
  {
    var tree' := Appended(tree, p, id, usb, driver);
    forall x | x in tree' ensures Attached(tree', x) && Parents(tree', x) {
      assert x != id ==> Attached(tree, x) && Parents(tree, x);
      assert Parents(tree, p);
    }
  }

  lemma {:induction false} AppendedBelow(tree: Tree, p: Id, id: Id, usb: bool, driver: Option<nat>, d: Id, a: Id)
    requires WellFormed(tree) && p in tree && id !in tree && d in tree && WellFormed(Appended(tree, p, id, usb, driver))
    ensures Below(Appended(tree, p, id, usb, driver), d, a) <==> Below(tree, d, a)
    decreases tree[d].depth
  {
    assert Attached(tree, d);
    if tree[d].parent.Some? {
      AppendedBelow(tree, p, id, usb, driver, tree[d].parent.value, a);
    }
  }

  lemma AppendedGood(tree: Tree, p: Id, id: Id, usb: bool, driver: Option<nat>)
    requires Good(tree) && p in tree && id !in tree
    ensures Good(Appended(tree, p, id, usb, driver)) && Spares(tree, Appended(tree, p, id, usb, driver), None)
  {
    AppendedWellFormed(tree, p, id, usb, driver);
    var tree' := Appended(tree, p, id, usb, driver);
    forall x | x in tree' ensures KeptForOthers(tree', x) && MarkedBelowRoot(tree'[x]) {
      if x in tree && Deferred(tree[x]) {
        assert KeptForOthers(tree, x) && MarkedBelowRoot(tree[x]);
        var d :| UsbBelow(tree, d, x);
        AppendedBelow(tree, p, id, usb, driver, d, x);
        assert UsbBelow(tree', d, x);
      }
    }
  }

  lemma RebindGood(tree: Tree, id: Id, bind: bool, driver: Option<nat>)
    requires Good(tree)
    ensures Good(DoRebind(tree, id, bind, driver)) && Spares(tree, DoRebind(tree, id, bind, driver), None)
  {
    hide HasUsbBelow;
    var tree' := DoRebind(tree, id, bind, driver);
    if tree' != tree {
      assert SameShape(tree, tree');
      ShapeWellFormed(tree, tree');
      forall x | x in tree' ensures KeptForOthers(tree', x) && MarkedBelowRoot(tree'[x]) {
        assert KeptForOthers(tree, x) && MarkedBelowRoot(tree[x]);
        if HasUsbBelow(tree, x) { ShapeUsbBelow(tree, tree', x); }
      }
    }
  }

  /**
   Removing a device leaves every other live USB device in place: only the named one and marked ones that
   lost their last USB device below are released, and none of the latter remains.
   */
  lemma RemoveGood(tree: Tree, n: Id)
    requires Good(tree)
    ensures Good(DoRemove(tree, n)) && Spares(tree, DoRemove(tree, n), Some(n))
  {
    hide HasUsbBelow, Pruned, Cut, Cleared, Below, Violates;
    if n in tree && tree[n].usb && tree[n].parent.Some? {
      if HasUsbBelow(tree, n) {
        ClearedGood(tree, n);
      } else {
        NoViolations(tree);
        CutViolations(tree, n);
        CutSpares(tree, n);
        CutMarks(tree, n);
        PrunedGood(Cut(tree, n), tree[n].parent);
        SparesBoth(tree, Cut(tree, n), DoRemove(tree, n), n);
      }
    }
  }

  lemma SparesBoth(tree: Tree, cut: Tree, pruned: Tree, n: Id)
    requires Spares(tree, cut, Some(n)) && Spares(cut, pruned, None)
    ensures Spares(tree, pruned, Some(n))
  {
  }

  lemma CutMarks(tree: Tree, n: Id)
    requires WellFormed(tree) && n in tree
    ensures forall x :: x in Cut(tree, n) ==> x in tree && Cut(tree, n)[x].(children := tree[x].children) == tree[x]
  {
  }

  lemma ActionGood(tree: Tree, a: Action)
    requires Good(tree)
    ensures Good(Apply(tree, a)) && Spares(tree, Apply(tree, a), if a.Remove? then Some(a.id) else None)
  {
    hide KeptForOthers, Appended, DoRemove, DoRebind;
    match a
    case Register(p, id, driver) => if p in tree && id !in tree { AppendedGood(tree, p, id, true, driver); }
    case Rebind(id, bind, driver) => RebindGood(tree, id, bind, driver);
    case AddPlain(p, id, driver) => if p in tree && id !in tree { AppendedGood(tree, p, id, false, driver); }
    case Remove(id) => RemoveGood(tree, id);
  }

  /** `tree'` is reached from `tree` by the registrations and removals of the run. */
  ghost predicate Run(tree: Tree, run: seq<Action>, tree': Tree)
    requires Good(tree)
    decreases |run|
  {
    if run == [] then tree' == tree
    else
      ActionGood(tree, run[0]);
      Run(Apply(tree, run[0]), run[1..], tree')
  }

  lemma {:induction false} RunGood(tree: Tree, run: seq<Action>, tree': Tree)
    requires Good(tree) && Run(tree, run, tree')
    ensures Good(tree')
    decreases |run|
  {
    hide KeptForOthers, Apply;
    if run != [] {
      ActionGood(tree, run[0]);
      RunGood(Apply(tree, run[0]), run[1..], tree');
    }
  }

  ghost predicate LiveUsbBelow(tree: Tree, d: Id, a: Id)
    requires WellFormed(tree)
  {
    UsbBelow(tree, d, a) && !Deferred(tree[d])
  }

  /** Below a marked device there is one that is not: follow the marks down, which must end. */
  lemma {:induction false} LiveBelow(tree: Tree, d: Id, a: Id, limit: nat)
    requires Good(tree) && UsbBelow(tree, d, a) && forall x :: x in tree ==> tree[x].depth < limit
    ensures exists live :: LiveUsbBelow(tree, live, a)
    decreases limit - tree[d].depth
  {
    if Deferred(tree[d]) {
      assert KeptForOthers(tree, d);
      var deeper :| UsbBelow(tree, deeper, d);
      BelowDepth(tree, deeper, d);
      BelowTransitive(tree, deeper, d, a);
      LiveBelow(tree, deeper, a, limit);
    } else {
      assert LiveUsbBelow(tree, d, a);
    }
  }

  /** After any run of registrations and removals, every marked device still has a USB device below it that is not marked itself. */
  lemma MarkedDevicesAreNeeded(tree: Tree, run: seq<Action>, tree': Tree, x: Id)
    requires Good(tree) && Run(tree, run, tree') && x in tree' && Deferred(tree'[x])
    ensures WellFormed(tree') && exists d :: LiveUsbBelow(tree', d, x)
  {
    RunGood(tree, run, tree');
    assert KeptForOthers(tree', x);
    var d :| UsbBelow(tree', d, x);
    var depths := set y | y in tree' :: tree'[y].depth;
    var limit := FreshNumber(depths);
    assert forall y :: y in tree' ==> tree'[y].depth in depths;
    LiveBelow(tree', d, x, limit);
  }
}
