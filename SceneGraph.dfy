// The scene graph: a root node and the viewing parameters, with the
// depth-first lookup of a node by name. The node tree is a value here: a
// name and the ordered children.
module SceneGraphs {
  import opened Vectors

  /** A node of the scene tree. */
  datatype Node = Node(name: string, children: seq<Node>)

  /** The nodes of t in pre-order: t, then each child's subtree in index order. */
  function PreOrder(t: Node): seq<Node>
    decreases t, 1
  {
    [t] + PreOrderAll(t.children)
  }

  function PreOrderAll(ts: seq<Node>): seq<Node>
    decreases ts, 0
  {
    if |ts| == 0 then [] else PreOrder(ts[0]) + PreOrderAll(ts[1..])
  }

  /** The first node of ns named name, if any. */
  function FirstNamed(ns: seq<Node>, name: string): (r: Option<Node>)
    ensures r.Some? ==> r.value in ns && r.value.name == name
    ensures r.None? <==> forall n :: n in ns ==> n.name != name
  {
    if |ns| == 0 then None
    else if ns[0].name == name then Some(ns[0])
    else FirstNamed(ns[1..], name)
  }

  lemma {:induction false} FirstNamedAppend(a: seq<Node>, b: seq<Node>, name: string)
    ensures FirstNamed(a + b, name) == if FirstNamed(a, name).Some? then FirstNamed(a, name) else FirstNamed(b, name)
  {
    if |a| > 0 {
      assert (a + b)[1..] == a[1..] + b;
      FirstNamedAppend(a[1..], b, name);
    } else {
      assert a + b == b;
    }
  }

  lemma {:induction false} PreOrderAllSnoc(ts: seq<Node>, t: Node)
    ensures PreOrderAll(ts + [t]) == PreOrderAll(ts) + PreOrder(t)
  {
    if |ts| == 0 {
      assert ts + [t] == [t];
      assert [t][1..] == [];
    } else {
      assert (ts + [t])[1..] == ts[1..] + [t];
      PreOrderAllSnoc(ts[1..], t);
    }
  }

  /**
   * getSceneObject(name, node): the node itself when its name matches,
   * otherwise the first child subtree, in index order, that yields a
   * match; None (the engine's nullptr) when there is none. This is the
   * first node named name in the pre-order of the subtree.
   */
  method GetSceneObject(name: string, node: Node) returns (r: Option<Node>)
    ensures r == FirstNamed(PreOrder(node), name)
    decreases node
  {
    if node.name == name {
      return Some(node);
    }
    var i := 0;
    while i < |node.children|
      invariant 0 <= i <= |node.children|
      invariant FirstNamed(PreOrderAll(node.children[..i]), name).None?
    {
      var found := GetSceneObject(name, node.children[i]);
      ChildSearched(node, i, name);
      if found.Some? {
        return found;
      }
      i := i + 1;
    }
    assert node.children[..i] == node.children;
    FirstNamedAppend([node], PreOrderAll(node.children), name);
    r := None;
  }

  /**
   * After a search of child i finds nothing in the children before it, the
   * result for the node is that child's result when it has one, and the
   * children up to i still hold no match when it has none.
   */
  lemma ChildSearched(node: Node, i: nat, name: string)
    requires i < |node.children| && node.name != name
    requires FirstNamed(PreOrderAll(node.children[..i]), name).None?
    ensures var found := FirstNamed(PreOrder(node.children[i]), name);
            (found.Some? ==> FirstNamed(PreOrder(node), name) == found) &&
            (found.None? ==> FirstNamed(PreOrderAll(node.children[..i + 1]), name).None?)
  {
    PreOrderAllSnoc(node.children[..i], node.children[i]);
    FirstNamedAppend(PreOrderAll(node.children[..i]), PreOrder(node.children[i]), name);
    assert node.children[..i + 1] == node.children[..i] + [node.children[i]];
    if FirstNamed(PreOrder(node.children[i]), name).Some? {
      PreOrderAllPrefix(node.children, i + 1, name);
      FirstNamedAppend([node], PreOrderAll(node.children), name);
    }
  }

  /** A match in the pre-order of a prefix of the children is the match of all of them. */
  lemma PreOrderAllPrefix(ts: seq<Node>, k: nat, name: string)
    requires k <= |ts|
    requires FirstNamed(PreOrderAll(ts[..k]), name).Some?
    ensures FirstNamed(PreOrderAll(ts), name) == FirstNamed(PreOrderAll(ts[..k]), name)
  {
    PreOrderAllSplit(ts, k);
    FirstNamedAppend(PreOrderAll(ts[..k]), PreOrderAll(ts[k..]), name);
  }

  lemma {:induction false} PreOrderAllSplit(ts: seq<Node>, k: nat)
    requires k <= |ts|
    ensures PreOrderAll(ts) == PreOrderAll(ts[..k]) + PreOrderAll(ts[k..])
  {
    if k == 0 {
      assert ts[..0] == [] && ts[0..] == ts;
    } else {
      assert ts[..k][1..] == ts[1..][..k - 1];
      assert ts[k..] == ts[1..][k - 1..];
      assert ts[..k][0] == ts[0];
      PreOrderAllSplit(ts[1..], k - 1);
    }
  }

  /** A camera; its behaviour is not part of this model. */
  class Camera {
  }

  /** The scene: the root, the camera (possibly null) and the projection parameters. */
  class SceneGraph {
    var root: Node
    var camera: Camera?
    var fov: real
    var width: real
    var height: real
    var nearZ: real
    var farZ: real

    /** The defaults of the header: no camera, fov 45, a 512 x 512 view, near 0.1, far 100. */
    constructor (root: Node)
      ensures this.root == root && camera == null
      ensures fov == 45.0 && width == 512.0 && height == 512.0 && nearZ == 0.1 && farZ == 100.0
    {
      this.root := root;
      camera := null;
      fov, width, height, nearZ, farZ := 45.0, 512.0, 512.0, 0.1, 100.0;
    }

    /** getSceneObject(name): the lookup from the root. */
    method FindSceneObject(name: string) returns (r: Option<Node>)
      ensures r == FirstNamed(PreOrder(root), name)
    {
      r := GetSceneObject(name, root);
    }

    method SetCamera(c: Camera?)
      modifies this
      ensures camera == c
      ensures root == old(root) && fov == old(fov) && width == old(width) && height == old(height)
      ensures nearZ == old(nearZ) && farZ == old(farZ)
    {
      camera := c;
    }

    method SetFov(v: real)
      modifies this
      ensures fov == v
      ensures root == old(root) && camera == old(camera) && width == old(width) && height == old(height)
      ensures nearZ == old(nearZ) && farZ == old(farZ)
    {
      fov := v;
    }

    method SetWidth(v: real)
      modifies this
      ensures width == v
      ensures root == old(root) && camera == old(camera) && fov == old(fov) && height == old(height)
      ensures nearZ == old(nearZ) && farZ == old(farZ)
    {
      width := v;
    }

    method SetHeight(v: real)
      modifies this
      ensures height == v
      ensures root == old(root) && camera == old(camera) && fov == old(fov) && width == old(width)
      ensures nearZ == old(nearZ) && farZ == old(farZ)
    {
      height := v;
    }

    method SetNearZ(v: real)
      modifies this
      ensures nearZ == v
      ensures root == old(root) && camera == old(camera) && fov == old(fov) && width == old(width)
      ensures height == old(height) && farZ == old(farZ)
    {
      nearZ := v;
    }

    method SetFarZ(v: real)
      modifies this
      ensures farZ == v
      ensures root == old(root) && camera == old(camera) && fov == old(fov) && width == old(width)
      ensures height == old(height) && nearZ == old(nearZ)
    {
      farZ := v;
    }
  }
}
