/**
 * The project's tree of node IDs. nv_tree.py is not part of this model: this
 * stand-in keeps, per parent node, its children in order, and gives the four
 * operations the core calls (get_children, append, move to the end, next).
 * A node the tree has never seen has no children.
 */
module NvTrees {
  import opened Wrappers

  class NvTree {
    var children: map<string, seq<string>>

    constructor()
      ensures children == map[]
    {
      children := map[];
    }

    /** get_children(parent): the children in order, [] for an unknown node. */
    function GetChildren(parent: string): (r: seq<string>)
      reads this
      ensures parent in children ==> r == children[parent]
      ensures parent !in children ==> r == []
    {
      ChildrenOf(children, parent)
    }

    /** reset(): forget every node. */
    method Reset()
      modifies this
      ensures children == map[]
    {
      children := map[];
    }

    /** append(parent, child): the child becomes the last child of parent. */
    method Append(parent: string, child: string)
      modifies this
      ensures children == old(children)[parent := old(GetChildren(parent)) + [child]]
    {
      children := children[parent := GetChildren(parent) + [child]];
    }

    /** move(node, parent, 'end'): node leaves the children of parent and is appended as the last one. */
    method MoveToEnd(node: string, parent: string)
      modifies this
      ensures children == old(children)[parent := Without(old(GetChildren(parent)), node) + [node]]
    {
      children := children[parent := Without(GetChildren(parent), node) + [node]];
    }

    /** next(node) among the children of parent: the following sibling, None for the last one. */
    function Next(parent: string, node: string): (r: Option<string>)
      reads this
      ensures r.Some? <==>
        exists i :: 0 <= i < |GetChildren(parent)| - 1 && GetChildren(parent)[i] == node
      ensures r.Some? ==> r.value in GetChildren(parent)
    {
      NextIn(GetChildren(parent), node)
    }
  }

  /** The children a parent -> children map gives a node. */
  function ChildrenOf(kids: map<string, seq<string>>, parent: string): seq<string>
  {
    if parent in kids then kids[parent] else []
  }

  /** The sequence without any occurrence of x, in order. */
  function Without(s: seq<string>, x: string): (r: seq<string>)
    ensures forall y :: y in r <==> y in s && y != x
    ensures |r| <= |s|
  {
    if s == [] then []
    else if s[0] == x then Without(s[1..], x)
    else [s[0]] + Without(s[1..], x)
  }

  /** The element after the first occurrence of node, if there is one. */
  function NextIn(s: seq<string>, node: string): (r: Option<string>)
    ensures r.Some? <==> exists i :: 0 <= i < |s| - 1 && s[i] == node
    ensures r.Some? ==> r.value in s
  {
    if |s| < 2 then None
    else if s[0] == node then Some(s[1])
    else
      var r := NextIn(s[1..], node);
      assert forall i :: 1 <= i < |s| - 1 ==> s[i] == s[1..][i - 1];
      assert r.Some? ==> exists i :: 0 <= i < |s| - 1 && s[i] == node by {
        if r.Some? {
          var j :| 0 <= j < |s[1..]| - 1 && s[1..][j] == node;
          assert s[j + 1] == node;
        }
      }
      r
  }
}
