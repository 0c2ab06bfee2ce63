/** Places in a term, as paths of child indices.

    The passes walk terms with functions of their own.  Paths describe the same places from
    the outside: what stands there, and what stands above it.
 */
module Paths {
  import opened Ir
  import opened Wrappers

  type Path = seq<nat>

  function At(e: Expr, path: Path): Option<Expr>
    decreases |path|
  {
    if path == [] then Some(e)
    else if path[0] < |Children(e)| then At(Children(e)[path[0]], path[1..])
    else None
  }

  function Last(path: Path): nat
    requires path != []
  {
    path[|path| - 1]
  }

  function Front(path: Path): Path
    requires path != []
  {
    path[..|path| - 1]
  }

  /** What stands directly above a place. */
  function Above(e: Expr, path: Path): Option<Expr>
    requires path != []
  {
    At(e, Front(path))
  }

  /** The node yields what child `i` yields: branches and let bodies. */
  predicate Yields(e: Expr, i: nat) {
    match e
    case Let(_, _, _) => i == 1
    case If(_, _, _) => i >= 1
    case Match(_, _) => i >= 1
    case _ => false
  }

  lemma AtStep(e: Expr, i: nat, path: Path)
    ensures At(e, [i] + path) == if i < |Children(e)| then At(Children(e)[i], path) else None
  {
    assert ([i] + path)[1..] == path;
  }

  lemma {:induction false} AtSnoc(e: Expr, path: Path, i: nat)
    ensures At(e, path + [i])
         == match At(e, path)
            case None => None
            case Some(s) => if i < |Children(s)| then Some(Children(s)[i]) else None
    decreases |path|
  {
    if path == [] {
      assert ([] + [i])[1..] == [];
    } else {
      assert (path + [i])[1..] == path[1..] + [i];
      if path[0] < |Children(e)| {
        AtSnoc(Children(e)[path[0]], path[1..], i);
      }
    }
  }

  /** The last step of a path that goes on below a child. */
  lemma FrontStep(i: nat, path: Path)
    requires path != []
    ensures Front([i] + path) == [i] + Front(path) && Last([i] + path) == Last(path)
  {}

  lemma SplitStep(path: Path)
    requires path != []
    ensures path == [path[0]] + path[1..]
  {}
}
