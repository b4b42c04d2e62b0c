/** Following a path of keys and indices down a tree (`get_deep_element`). */
module Descent {
  import opened Wrappers
  import opened Values

  /**
   * One Python subscript `node[key]`: a dict looked up by name, a list indexed with
   * Python's negative-index convention; anything else raises.
   */
  function Subscript<L>(node: Tree<L>, key: Key): (r: Result<Tree<L>, Error>)
    ensures r.Ok? <==>
      || (node.Dict? && key.Name? && key.name in node.entries)
      || (node.List? && key.Index? && -|node.items| <= key.index < |node.items|)
    ensures node.Dict? && key.Name? && key.name in node.entries ==> r == Ok(node.entries[key.name])
    ensures node.List? && key.Index? && 0 <= key.index < |node.items| ==> r == Ok(node.items[key.index])
    ensures node.List? && key.Index? && -|node.items| <= key.index < 0 ==>
      r == Ok(node.items[key.index + |node.items|])
    ensures node.Dict? && !(key.Name? && key.name in node.entries) ==> r == Err(KeyError(key))
    ensures node.List? && key.Index? && !(-|node.items| <= key.index < |node.items|) ==>
      r == Err(IndexError(key.index))
    ensures (node.Leaf? || (node.List? && key.Name?)) ==> r == Err(TypeError(key))
  {
    match node
    case Dict(m) =>
      (match key
       case Name(k) => if k in m then Ok(m[k]) else Err(KeyError(key))
       case Index(_) => Err(KeyError(key)))
    case List(xs) =>
      (match key
       case Index(i) =>
         if 0 <= i < |xs| then Ok(xs[i])
         else if -|xs| <= i < 0 then Ok(xs[i + |xs|])
         else Err(IndexError(i))
       case Name(_) => Err(TypeError(key)))
    case Leaf(_) => Err(TypeError(key))
  }

  /** The node reached from `t` by subscripting with each key of `path` in turn. */
  function Descend<L>(t: Tree<L>, path: Path): (r: Result<Tree<L>, Error>)
    decreases |path|
  {
    if path == [] then Ok(t)
    else
      var next :- Subscript(t, path[0]);
      Descend(next, path[1..])
  }

  /** Descending by `p1 + p2` is descending by `p1`, then by `p2` from the node reached. */
  lemma {:induction false} DescendAppend<L>(t: Tree<L>, p1: Path, p2: Path)
    ensures Descend(t, []) == Ok(t)
    ensures Descend(t, p1 + p2) ==
      match Descend(t, p1)
      case Ok(mid) => Descend(mid, p2)
      case Err(e) => Err(e)
    decreases |p1|
  {
    if p1 != [] {
      assert (p1 + p2)[0] == p1[0];
      assert (p1 + p2)[1..] == p1[1..] + p2;
      match Subscript(t, p1[0])
      case Ok(next) => DescendAppend(next, p1[1..], p2);
      case Err(_) =>
    } else {
      assert p1 + p2 == p2;
    }
  }

  /** A path fails exactly at its first step that fails: a later key is never looked at. */
  lemma {:induction false} DescendStopsAtFailingStep<L>(t: Tree<L>, path: Path, k: nat, node: Tree<L>, e: Error)
    requires k < |path|
    requires Descend(t, path[..k]) == Ok(node)
    requires Subscript(node, path[k]) == Err(e)
    ensures Descend(t, path) == Err(e)
  {
    var rest := path[k..];
    assert path == path[..k] + rest;
    assert rest[0] == path[k];
    assert Descend(node, rest) == Err(e);
    DescendAppend(t, path[..k], rest);
  }

  /** `get_deep_element`: the loop that reassigns `ret := ret[key]` for each key. */
  method GetDeepElement<L>(d: Tree<L>, keys: Path) returns (r: Result<Tree<L>, Error>)
    ensures r == Descend(d, keys)
  {
    var ret := d;
    for i := 0 to |keys|
      invariant Descend(d, keys) == Descend(ret, keys[i..])
    {
      assert keys[i..][0] == keys[i] && keys[i..][1..] == keys[i + 1..];
      var next := Subscript(ret, keys[i]);
      if next.Err? {
        return Err(next.error);
      }
      ret := next.value;
    }
    assert keys[|keys|..] == [];
    return Ok(ret);
  }
}
