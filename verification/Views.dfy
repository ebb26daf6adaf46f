/** View resolution with a set of views being visited (resolveTableRowsVisiting). */
module Views {
  import opened Options
  import opened Signature

  /** What the engine reads of one table; its content does not matter here. */
  type Data = string

  /** Base(None) is an external table whose files cannot be read. refs lists the tables the
      query of a view references, in the order in which they are resolved. */
  datatype Entry = Base(data: Option<Data>) | View(query: string, refs: seq<TableRef>)

  type Catalog = map<TableRef, Entry>

  /** Runs a query on its resolved tables, a missing one being None; None is an error. */
  type Engine = (string, seq<Option<Data>>) -> Option<Data>

  datatype Result = Missing | Found(data: Data) | Circular | Failed

  predicate IsError(r: Result) {
    r.Circular? || r.Failed?
  }

  datatype Inputs = Inputs(tables: seq<Option<Data>>) | Stopped(error: Result)

  function Read(data: Option<Data>): Result {
    if data.None? then Failed else Found(data.value)
  }

  function Run(engine: Engine, query: string, inputs: Inputs): Result {
    match inputs
    case Stopped(e) => e
    case Inputs(tables) => Read(engine(query, tables))
  }

  function AsInput(r: Result): Option<Data> {
    if r.Found? then Some(r.data) else None
  }

  /** One more input in front of the others; the first error wins. */
  function Cons(first: Result, rest: Inputs): Inputs {
    if IsError(first) then Stopped(first)
    else if rest.Stopped? then rest
    else Inputs([AsInput(first)] + rest.tables)
  }

  function Resolve(c: Catalog, engine: Engine, r: TableRef, visiting: set<TableRef>): Result
    decreases |c.Keys - visiting|, 1, 0
  {
    if r !in c then Missing
    else
      match c[r]
      case Base(data) => Read(data)
      case View(query, refs) =>
        if r in visiting then Circular
        else
          assert c.Keys - (visiting + {r}) == (c.Keys - visiting) - {r};
          Run(engine, query, ResolveAll(c, engine, refs, visiting + {r}))
  }

  function ResolveAll(c: Catalog, engine: Engine, refs: seq<TableRef>, visiting: set<TableRef>): (r: Inputs)
    ensures r.Stopped? ==> IsError(r.error)
    decreases |c.Keys - visiting|, 2, |refs|
  {
    if refs == [] then Inputs([])
    else
      var first := Resolve(c, engine, refs[0], visiting);
      if IsError(first) then Stopped(first) else Cons(first, ResolveAll(c, engine, refs[1..], visiting))
  }

  // ---- The recursion with one shared, mutable set ------------------------------------------

  class Visiting {
    var keys: set<TableRef>

    constructor ()
      ensures keys == {}
    {
      keys := {};
    }

    /** Resolves r; on every way out the set is as it was found. */
    method ResolveVisiting(c: Catalog, engine: Engine, r: TableRef) returns (res: Result)
      modifies this
      ensures keys == old(keys)
      ensures res == Resolve(c, engine, r, keys)
      decreases |c.Keys - keys|, 1, 0
    {
      if r !in c {
        return Missing;
      }
      match c[r] {
        case Base(data) =>
          return if data.None? then Failed else Found(data.value);
        case View(query, refs) =>
          if r in keys {
            return Circular;
          }
          assert c.Keys - (keys + {r}) == (c.Keys - keys) - {r};
          keys := keys + {r};
          var inputs := ResolveRefs(c, engine, refs);
          keys := keys - {r};
          return Run(engine, query, inputs);
      }
    }

    method ResolveRefs(c: Catalog, engine: Engine, refs: seq<TableRef>) returns (inputs: Inputs)
      modifies this
      ensures keys == old(keys)
      ensures inputs == ResolveAll(c, engine, refs, keys)
      decreases |c.Keys - keys|, 2, |refs|
    {
      if refs == [] {
        return Inputs([]);
      }
      var first := ResolveVisiting(c, engine, refs[0]);
      if IsError(first) {
        return Stopped(first);
      }
      var rest := ResolveRefs(c, engine, refs[1..]);
      return Cons(first, rest);
    }
  }

  // ---- Cycles ----------------------------------------------------------------------------------

  predicate IsView(c: Catalog, r: TableRef) {
    r in c && c[r].View?
  }

  /** A chain of views, each naming the next. */
  predicate IsChain(c: Catalog, p: seq<TableRef>) {
    && p != []
    && (forall i :: 0 <= i < |p| ==> IsView(c, p[i]))
    && (forall i :: 0 <= i < |p| - 1 ==> p[i + 1] in c[p[i]].refs)
  }

  predicate Repeats(p: seq<TableRef>) {
    exists i, j :: 0 <= i < j < |p| && p[i] == p[j]
  }

  ghost predicate CycleFrom(c: Catalog, r: TableRef) {
    exists p :: IsChain(c, p) && p[0] == r && Repeats(p)
  }

  lemma {:induction false} ChainCons(c: Catalog, r: TableRef, p: seq<TableRef>)
    requires IsChain(c, p) && IsView(c, r) && p[0] in c[r].refs
    ensures IsChain(c, [r] + p)
  {
    var q := [r] + p;
    forall i | 0 <= i < |q| - 1 ensures q[i + 1] in c[q[i]].refs {
      if i > 0 { assert p[i - 1 + 1] in c[p[i - 1]].refs; }
    }
  }

  lemma {:induction false} CircularRef(c: Catalog, engine: Engine, refs: seq<TableRef>, visiting: set<TableRef>)
    returns (r: TableRef)
    requires ResolveAll(c, engine, refs, visiting) == Stopped(Circular)
    ensures r in refs && Resolve(c, engine, r, visiting) == Circular
  {
    if Resolve(c, engine, refs[0], visiting).Circular? {
      r := refs[0];
    } else {
      r := CircularRef(c, engine, refs[1..], visiting);
    }
  }

  /** A circular reference that is reported is there: a chain leads back to a view being
      visited or to one of its own. */
  lemma {:induction false} CircularHasChain(c: Catalog, engine: Engine, r: TableRef, visiting: set<TableRef>)
    returns (p: seq<TableRef>)
    requires Resolve(c, engine, r, visiting) == Circular
    ensures IsChain(c, p) && p[0] == r && (p[|p| - 1] in visiting || Repeats(p))
    decreases |c.Keys - visiting|
  {
    if r in visiting {
      p := [r];
    } else {
      var inputs := ResolveAll(c, engine, c[r].refs, visiting + {r});
      assert inputs == Stopped(Circular);
      var next := CircularRef(c, engine, c[r].refs, visiting + {r});
      assert c.Keys - (visiting + {r}) == (c.Keys - visiting) - {r};
      var q := CircularHasChain(c, engine, next, visiting + {r});
      ChainCons(c, r, q);
      p := [r] + q;
      if Repeats(q) {
        var i, j :| 0 <= i < j < |q| && q[i] == q[j];
        assert p[i + 1] == p[j + 1];
      } else if q[|q| - 1] == r {
        assert p[0] == p[|q|];
      }
    }
  }

  lemma {:induction false} AllRefsSucceed(c: Catalog, engine: Engine, refs: seq<TableRef>, visiting: set<TableRef>,
                                          i: nat)
    requires ResolveAll(c, engine, refs, visiting).Inputs? && i < |refs|
    ensures !IsError(Resolve(c, engine, refs[i], visiting))
  {
    if i > 0 { AllRefsSucceed(c, engine, refs[1..], visiting, i - 1); }
  }

  /** Behind a table that resolves, no chain repeats itself or meets a view being visited. */
  lemma {:induction false} SuccessHasNoCycle(c: Catalog, engine: Engine, visiting: set<TableRef>, p: seq<TableRef>)
    requires IsChain(c, p) && !IsError(Resolve(c, engine, p[0], visiting))
    ensures forall i :: 0 <= i < |p| ==> p[i] !in visiting
    ensures !Repeats(p)
    decreases |p|
  {
    if |p| > 1 {
      var r, q := p[0], p[1..];
      var refs := c[r].refs;
      assert p[0 + 1] in refs;
      var k :| 0 <= k < |refs| && refs[k] == p[1];
      AllRefsSucceed(c, engine, refs, visiting + {r}, k);
      assert IsChain(c, q) by {
        forall i | 0 <= i < |q| - 1 ensures q[i + 1] in c[q[i]].refs { assert p[i + 1 + 1] in c[p[i + 1]].refs; }
      }
      SuccessHasNoCycle(c, engine, visiting + {r}, q);
      assert forall i :: 0 < i < |p| ==> p[i] == q[i - 1];
    }
  }

  /** A chain of views that ends in any table. */
  predicate IsPath(c: Catalog, p: seq<TableRef>) {
    p != [] && forall i :: 0 <= i < |p| - 1 ==> IsView(c, p[i]) && p[i + 1] in c[p[i]].refs
  }

  /** A table that can be read, a view whose query runs, or nothing. */
  ghost predicate Works(c: Catalog, engine: Engine, r: TableRef) {
    r in c ==>
      match c[r]
      case Base(data) => data.Some?
      case View(query, _) => forall tables :: engine(query, tables).Some?
  }

  /** Of what r leads to, nothing but a reference cycle can go wrong. */
  ghost predicate NeverFails(c: Catalog, engine: Engine, r: TableRef) {
    forall p :: IsPath(c, p) && p[0] == r ==> Works(c, engine, p[|p| - 1])
  }

  lemma {:induction false} NeverFailsBelow(c: Catalog, engine: Engine, r: TableRef, x: TableRef)
    requires NeverFails(c, engine, r) && IsView(c, r) && x in c[r].refs
    ensures NeverFails(c, engine, x)
  {
    forall p | IsPath(c, p) && p[0] == x ensures Works(c, engine, p[|p| - 1]) {
      var q := [r] + p;
      assert forall i :: 0 < i < |q| ==> q[i] == p[i - 1];
      assert IsPath(c, q);
      assert q[|q| - 1] == p[|p| - 1];
    }
  }

  lemma {:induction false} OnlyCyclesFail(c: Catalog, engine: Engine, r: TableRef, visiting: set<TableRef>)
    requires NeverFails(c, engine, r)
    ensures Resolve(c, engine, r, visiting) != Failed
    decreases |c.Keys - visiting|, 1, 0
  {
    assert IsPath(c, [r]);
    assert Works(c, engine, [r][|[r]| - 1]);
    if IsView(c, r) && r !in visiting {
      assert c.Keys - (visiting + {r}) == (c.Keys - visiting) - {r};
      forall x | x in c[r].refs ensures NeverFails(c, engine, x) { NeverFailsBelow(c, engine, r, x); }
      OnlyCyclesStop(c, engine, c[r].refs, visiting + {r});
    }
  }

  lemma {:induction false} OnlyCyclesStop(c: Catalog, engine: Engine, refs: seq<TableRef>, visiting: set<TableRef>)
    requires forall x :: x in refs ==> NeverFails(c, engine, x)
    ensures ResolveAll(c, engine, refs, visiting) != Stopped(Failed)
    decreases |c.Keys - visiting|, 2, |refs|
  {
    if refs != [] {
      OnlyCyclesFail(c, engine, refs[0], visiting);
      OnlyCyclesStop(c, engine, refs[1..], visiting);
    }
  }

  /** Resolution never succeeds when a cycle is reachable, and reports one only when it is. */
  lemma {:induction false} CyclesAreCaught(c: Catalog, engine: Engine, r: TableRef)
    ensures CycleFrom(c, r) ==> IsError(Resolve(c, engine, r, {}))
    ensures Resolve(c, engine, r, {}) == Circular ==> CycleFrom(c, r)
  {
    if CycleFrom(c, r) && !IsError(Resolve(c, engine, r, {})) {
      var p :| IsChain(c, p) && p[0] == r && Repeats(p);
      SuccessHasNoCycle(c, engine, {}, p);
      assert false;
    }
    if Resolve(c, engine, r, {}) == Circular {
      var p := CircularHasChain(c, engine, r, {});
    }
  }

  /** When no query or file that the root leads to fails, a circular reference is reported exactly
      for the roots from which a cycle is reachable. */
  lemma {:induction false} CircularIff(c: Catalog, engine: Engine, r: TableRef)
    requires NeverFails(c, engine, r)
    ensures Resolve(c, engine, r, {}) == Circular <==> CycleFrom(c, r)
  {
    CyclesAreCaught(c, engine, r);
    OnlyCyclesFail(c, engine, r, {});
  }

  /** A failing sibling hides a cycle: the first error in resolution order is the one reported. */
  lemma {:induction false} FailureHidesCycle(c: Catalog, engine: Engine, v: TableRef, broken: TableRef, query: string)
    requires v != broken && c == map[v := View(query, [broken, v]), broken := Base(None)]
    ensures CycleFrom(c, v) && Resolve(c, engine, v, {}) == Failed
  {
    assert IsChain(c, [v, v]) && Repeats([v, v]) by { assert [v, v][0] == [v, v][1]; }
    assert Resolve(c, engine, broken, {v}) == Failed;
    assert ResolveAll(c, engine, [broken, v], {v}) == Stopped(Failed);
    assert {} + {v} == {v};
  }

  // ---- Without the set ---------------------------------------------------------------------------

  /** The reference: unfold views to a depth, remembering nothing. */
  function Unfold(c: Catalog, engine: Engine, r: TableRef, depth: nat): Result
    decreases depth, 1, 0
  {
    if r !in c then Missing
    else
      match c[r]
      case Base(data) => Read(data)
      case View(query, refs) =>
        if depth == 0 then Circular else Run(engine, query, UnfoldAll(c, engine, refs, depth - 1))
  }

  function UnfoldAll(c: Catalog, engine: Engine, refs: seq<TableRef>, depth: nat): Inputs
    decreases depth, 2, |refs|
  {
    if refs == [] then Inputs([])
    else
      var first := Unfold(c, engine, refs[0], depth);
      if IsError(first) then Stopped(first) else Cons(first, UnfoldAll(c, engine, refs[1..], depth))
  }

  /** A resolution that meets no cycle is the plain unfolding, to any sufficient depth. */
  lemma {:induction false} ResolveIsUnfold(c: Catalog, engine: Engine, r: TableRef, visiting: set<TableRef>, depth: nat)
    requires Resolve(c, engine, r, visiting) != Circular && |c.Keys - visiting| <= depth
    ensures Unfold(c, engine, r, depth) == Resolve(c, engine, r, visiting)
    decreases |c.Keys - visiting|, 1, 0
  {
    if IsView(c, r) {
      assert r in c.Keys - visiting;
      assert c.Keys - (visiting + {r}) == (c.Keys - visiting) - {r};
      ResolveAllIsUnfold(c, engine, c[r].refs, visiting + {r}, depth - 1);
    }
  }

  lemma {:induction false} ResolveAllIsUnfold(c: Catalog, engine: Engine, refs: seq<TableRef>, visiting: set<TableRef>,
                                              depth: nat)
    requires ResolveAll(c, engine, refs, visiting) != Stopped(Circular) && |c.Keys - visiting| <= depth
    ensures UnfoldAll(c, engine, refs, depth) == ResolveAll(c, engine, refs, visiting)
    decreases |c.Keys - visiting|, 2, |refs|
  {
    if refs != [] {
      ResolveIsUnfold(c, engine, refs[0], visiting, depth);
      if !IsError(Resolve(c, engine, refs[0], visiting)) {
        ResolveAllIsUnfold(c, engine, refs[1..], visiting, depth);
      }
    }
  }

  /** The result, failures included, does not depend on the set of views being visited. */
  lemma {:induction false} ResultIgnoresVisiting(c: Catalog, engine: Engine, r: TableRef, u: set<TableRef>,
                                                 v: set<TableRef>)
    requires Resolve(c, engine, r, u) != Circular && Resolve(c, engine, r, v) != Circular
    ensures Resolve(c, engine, r, u) == Resolve(c, engine, r, v)
  {
    var depth := |c.Keys - u| + |c.Keys - v|;
    ResolveIsUnfold(c, engine, r, u, depth);
    ResolveIsUnfold(c, engine, r, v, depth);
  }
}
