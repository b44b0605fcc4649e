/** The route tree of web/router.go: one tree per HTTP method, a node per path
    segment, and a handler on the node where a route ends.

    A node is addressed by the sequence of segments leading to it from its
    method's root (the root is `[]`), so a tree is a map from addresses to
    nodes; child pointers become the address one segment longer. Handlers
    are identified by a number. */
module WebRouter {
  import opened Wrappers
  import opened GoStrings

  datatype Handler = Handler(id: nat)

  /** node: its own segment (`/` for a root) and its handler, if any. */
  datatype Node = Node(path: string, handler: Option<Handler>)

  type Tree = map<seq<string>, Node>

  /** The tree AddRoute makes for a method it has not seen: a root with path `/`. */
  function NewTree(): Tree
  {
    map[[] := Node("/", None)]
  }

  /** The segments a path other than `/` is split into: its first character
      dropped, the rest split on `/`. */
  function Segments(path: string): (segs: seq<string>)
    requires path != ""
    ensures |segs| >= 1
  {
    Split(path[1..], '/')
  }

  /** childOrCreate: the child for seg under the node at addr, made with path
      seg when it is not there. */
  function ChildOrCreate(t: Tree, addr: seq<string>, seg: string): Tree
  {
    if addr + [seg] in t then t else t[addr + [seg] := Node(seg, None)]
  }

  /** The loop of AddRoute: walks down segs from the root, creating what is missing. */
  function Walk(t: Tree, segs: seq<string>): (r: Tree)
    ensures t.Keys <= r.Keys
    ensures forall i :: 0 < i <= |segs| ==> segs[..i] in r
  {
    if segs == [] then t
    else
      var init := segs[..|segs| - 1];
      var w := Walk(t, init);
      assert forall i :: 0 < i < |segs| ==> segs[..i] == init[..i];
      assert init + [segs[|segs| - 1]] == segs[..|segs|] == segs;
      ChildOrCreate(w, init, segs[|segs| - 1])
  }

  /** The tree of one method after AddRoute(path, h). */
  function AddTo(t: Tree, path: string, h: Handler): (r: Tree)
    requires path != "" && [] in t
    ensures t.Keys <= r.Keys
  {
    var segs := if path == "/" then [] else Segments(path);
    var w := Walk(t, segs);
    assert segs[..|segs|] == segs;
    w[segs := w[segs].(handler := Some(h))]
  }

  /** The address at which AddRoute puts the handler. */
  function Target(path: string): seq<string>
    requires path != ""
  {
    if path == "/" then [] else Segments(path)
  }

  /** Router: the trees, by HTTP method. */
  class Router {
    var trees: map<string, Tree>

    /** Every tree has come from AddRoute, so it is well formed. */
    ghost predicate Valid()
      reads this
    {
      forall m :: m in trees ==> WellFormed(trees[m])
    }

    /** NewRouter: no trees. */
    constructor ()
      ensures trees == map[] && Valid()
    {
      trees := map[];
    }

    /** node.childOrCreate on the node at addr of method m's tree; returns the child's address. */
    method ChildOrCreateAt(m: string, addr: seq<string>, seg: string) returns (child: seq<string>)
      requires m in trees
      modifies this
      ensures child == addr + [seg]
      ensures trees == old(trees)[m := ChildOrCreate(old(trees)[m], addr, seg)]
    {
      var t := trees[m];
      child := addr + [seg];
      if child !in t {
        trees := trees[m := t[child := Node(seg, None)]];
      }
    }

    /** The tree of method m, made with its root when AddRoute first sees m. */
    method TreeFor(m: string)
      requires Valid()
      modifies this
      ensures Valid() && m in trees
      ensures trees == old(trees)[m := if m in old(trees) then old(trees)[m] else NewTree()]
    {
      if m !in trees {
        NewTreeWellFormed();
        trees := trees[m := NewTree()];
      } else {
        assert trees == trees[m := trees[m]];
      }
    }

    /** The handler stored on the node at addr of method m's tree. */
    method SetHandler(m: string, addr: seq<string>, h: Handler)
      requires m in trees && addr in trees[m]
      modifies this
      ensures trees == old(trees)[m := old(trees)[m][addr := old(trees)[m][addr].(handler := Some(h))]]
    {
      var t := trees[m];
      trees := trees[m := t[addr := t[addr].(handler := Some(h))]];
    }

    /** AddRoute. An empty path is a precondition: the source slices it and panics. */
    method AddRoute(m: string, path: string, h: Handler)
      requires path != "" && Valid()
      modifies this
      ensures Valid()
      ensures trees == old(trees)[m := AddTo(if m in old(trees) then old(trees)[m] else NewTree(), path, h)]
    {
      ghost var trees0 := trees;
      ghost var t0 := if m in trees then trees[m] else NewTree();
      NewTreeWellFormed();
      AddToWellFormed(t0, path, h);
      TreeFor(m);
      AddToTree(m, path, h);
      WellFormedKept(trees0, m, AddTo(t0, path, h), trees);
    }

    /** AddRoute once the method's tree exists: the root's handler for `/`,
        otherwise the walk down the segments and the handler on the last node. */
    method AddToTree(m: string, path: string, h: Handler)
      requires path != "" && m in trees && [] in trees[m]
      modifies this
      ensures trees == old(trees)[m := AddTo(old(trees)[m], path, h)]
    {
      ghost var t0 := trees[m];
      if path == "/" {
        AddToRoot(t0, h);
        SetHandler(m, [], h);
      } else {
        var segs := Split(path[1..], '/');
        var leaf := WalkRoute(m, segs);
        AddToSegments(t0, path, h);
        SetHandler(m, leaf, h);
      }
    }

    /** The loop of AddRoute: one childOrCreate per segment, each from the node
        the previous one returned; returns the last node's address. */
    method WalkRoute(m: string, segs: seq<string>) returns (leaf: seq<string>)
      requires m in trees
      modifies this
      ensures leaf == segs && m in trees
      ensures trees == old(trees)[m := Walk(old(trees)[m], segs)]
    {
      leaf := [];
      ghost var root := trees[m];
      for i := 0 to |segs|
        invariant leaf == segs[..i]
        invariant trees == old(trees)[m := Walk(root, segs[..i])]
      {
        leaf := ChildOrCreateAt(m, leaf, segs[i]);
        assert segs[..i + 1][..i] == segs[..i];
      }
      assert segs[..|segs|] == segs;
    }
  }

  // ------------------------------------------------------------ properties

  /** The shape every tree keeps: a root with path `/`, and every other node
      sits under its parent and carries its own segment as its path. */
  ghost predicate WellFormed(t: Tree)
  {
    && [] in t && t[[]].path == "/"
    && forall a, seg :: a + [seg] in t ==> a in t && t[a + [seg]].path == seg
  }

  /** The walk adds exactly the nodes on the route. */
  lemma {:induction false} WalkKeys(t: Tree, segs: seq<string>)
    ensures forall a :: a in Walk(t, segs) <==> a in t || (0 < |a| <= |segs| && a == segs[..|a|])
  {
    if segs != [] {
      var init := segs[..|segs| - 1];
      WalkKeys(t, init);
      forall a ensures (0 < |a| <= |segs| && a == segs[..|a|]) <==>
                       (0 < |a| <= |init| && a == init[..|a|]) || a == segs {
        if 0 < |a| <= |init| {
          assert segs[..|a|] == init[..|a|];
        }
      }
    }
  }

  /** The walk leaves every existing node as it was. */
  lemma {:induction false} WalkKeeps(t: Tree, segs: seq<string>)
    ensures forall a :: a in t ==> Walk(t, segs)[a] == t[a]
  {
    if segs != [] {
      WalkKeeps(t, segs[..|segs| - 1]);
    }
  }

  /** Every node the walk adds carries its own segment and no handler. */
  lemma {:induction false} WalkNew(t: Tree, segs: seq<string>)
    ensures forall a :: a in Walk(t, segs) && a !in t ==> |a| > 0 && Walk(t, segs)[a] == Node(a[|a| - 1], None)
  {
    if segs != [] {
      var init := segs[..|segs| - 1];
      WalkNew(t, init);
      WalkKeys(t, init);
      assert init + [segs[|segs| - 1]] == segs;
    }
  }

  /** The walk adds exactly the nodes on the route, each with no handler, and
      leaves every existing node as it was. */
  lemma WalkAdds(t: Tree, segs: seq<string>)
    ensures forall a :: a in Walk(t, segs) <==> a in t || (0 < |a| <= |segs| && a == segs[..|a|])
    ensures forall a :: a in t ==> Walk(t, segs)[a] == t[a]
    ensures forall a :: a in Walk(t, segs) && a !in t ==> Walk(t, segs)[a] == Node(a[|a| - 1], None)
  {
    WalkKeys(t, segs);
    WalkKeeps(t, segs);
    WalkNew(t, segs);
  }

  /** AddRoute keeps a tree well formed. */
  lemma AddToWellFormed(t: Tree, path: string, h: Handler)
    requires WellFormed(t) && path != ""
    ensures WellFormed(AddTo(t, path, h))
  {
    var segs := Target(path);
    WalkAdds(t, segs);
    var r := AddTo(t, path, h);
    forall a, seg | a + [seg] in r ensures a in r && r[a + [seg]].path == seg {
      var c := a + [seg];
      assert c[..|c| - 1] == a && c[|c| - 1] == seg;
      if c !in t && a != [] {
        assert a == segs[..|a|] by {
          assert c == segs[..|c|];
        }
      }
    }
  }

  /** The tree of a method AddRoute has not seen is well formed. */
  lemma NewTreeWellFormed()
    ensures WellFormed(NewTree())
  {
  }

  /** Replacing one method's tree by a well-formed tree keeps every tree well formed. */
  lemma WellFormedKept(trees: map<string, Tree>, m: string, r: Tree, after: map<string, Tree>)
    requires forall n :: n in trees ==> WellFormed(trees[n])
    requires WellFormed(r) && after == trees[m := r]
    ensures forall n :: n in after ==> WellFormed(after[n])
  {
  }

  /** AddRoute's tree for the path `/`: the root's handler set. */
  lemma AddToRoot(t: Tree, h: Handler)
    requires [] in t
    ensures AddTo(t, "/", h) == t[[] := t[[]].(handler := Some(h))]
  {
  }

  /** AddRoute's tree for a path other than `/`: the walked tree with the
      handler set on the last segment's node. */
  lemma AddToSegments(t: Tree, path: string, h: Handler)
    requires [] in t && path != "" && path != "/"
    ensures Segments(path) in Walk(t, Segments(path))
    ensures AddTo(t, path, h) ==
              Walk(t, Segments(path))[Segments(path) := Walk(t, Segments(path))[Segments(path)].(handler := Some(h))]
  {
    var segs := Segments(path);
    assert segs[..|segs|] == segs;
  }

  /** After AddRoute(path, h) the route's node holds h; the nodes added are
      exactly those on the route that were missing; every other node keeps
      its handler. */
  lemma AddToEffect(t: Tree, path: string, h: Handler)
    requires [] in t && path != ""
    ensures Target(path) in AddTo(t, path, h) && AddTo(t, path, h)[Target(path)].handler == Some(h)
    ensures forall a :: a in AddTo(t, path, h) <==>
              a in t || (0 < |a| <= |Target(path)| && a == Target(path)[..|a|])
    ensures forall a :: a in t && a != Target(path) ==> AddTo(t, path, h)[a] == t[a]
  {
    WalkAdds(t, Target(path));
  }

  /** Once every node on a route exists, walking it changes nothing. */
  lemma {:induction false} WalkExisting(t: Tree, segs: seq<string>)
    requires forall i :: 0 < i <= |segs| ==> segs[..i] in t
    ensures Walk(t, segs) == t
  {
    if segs != [] {
      var init := segs[..|segs| - 1];
      assert forall i :: 0 < i <= |init| ==> init[..i] == segs[..i];
      WalkExisting(t, init);
      assert segs[..|segs|] == segs;
      assert init + [segs[|segs| - 1]] == segs;
    }
  }

  /** Adding a route again creates no node and only replaces the handler: the
      later handler wins. */
  lemma AddToTwice(t: Tree, path: string, h1: Handler, h2: Handler)
    requires [] in t && path != ""
    ensures AddTo(AddTo(t, path, h1), path, h2) == AddTo(t, path, h2)
  {
    var segs := Target(path);
    var once := AddTo(t, path, h1);
    WalkAdds(t, segs);
    WalkExisting(once, segs);
  }

  /** A route added under one method leaves every other method's tree alone. */
  lemma OtherMethodsKept(trees: map<string, Tree>, m: string, path: string, h: Handler, other: string)
    requires path != "" && other != m && forall n :: n in trees ==> [] in trees[n]
    ensures var after := trees[m := AddTo(if m in trees then trees[m] else NewTree(), path, h)];
            (other in after <==> other in trees) && (other in trees ==> after[other] == trees[other])
  {
  }

  /** For a path starting with `/`, the segments joined with `/` after a
      leading `/` give the path back. */
  lemma SegmentsRebuildPath(path: string)
    requires path != "" && path[0] == '/'
    ensures "/" + Join(Segments(path), '/') == path
  {
    JoinSplit(path[1..], '/');
    assert [path[0]] + path[1..] == path;
  }
}
