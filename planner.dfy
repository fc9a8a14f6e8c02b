/**
 * The rerun planner of src/crew.py: the static table of which agents must re-run after an
 * upstream agent re-runs (`AGENT_DEPENDENCIES`, src/crew.py:40-45) and
 * `_add_agent_dependencies` (src/crew.py:734-751), which adds the listed downstream agents
 * of every input agent and returns the result in pipeline order.
 */
module Planner {

  const ProductOwner: string := "product_owner"
  const Architect: string := "architect"
  const BackendEngineer: string := "backend_engineer"
  const FrontendEngineer: string := "frontend_engineer"
  const QaEngineer: string := "qa_engineer"

  /** The four agents whose stages the manager may re-run. */
  const Agents: set<string> := {ProductOwner, Architect, BackendEngineer, FrontendEngineer}

  /** `AGENT_DEPENDENCIES`: the agents downstream of each agent. */
  const Dependencies: map<string, seq<string>> := map[
    ProductOwner := [Architect, BackendEngineer, FrontendEngineer],
    Architect := [BackendEngineer, FrontendEngineer],
    BackendEngineer := [FrontendEngineer],
    FrontendEngineer := []]

  /** The pipeline order the planner returns agents in. */
  const ExecutionOrder: seq<string> := [ProductOwner, Architect, BackendEngineer, FrontendEngineer]

  /** Position in `ExecutionOrder`; 4 for a name that is not there. */
  function Rank(a: string): (k: nat)
    ensures k < 4 <==> a in Agents
    ensures k < 4 ==> ExecutionOrder[k] == a
  {
    if a == ProductOwner then 0 else if a == Architect then 1
    else if a == BackendEngineer then 2 else if a == FrontendEngineer then 3 else 4
  }

  /** The table is transitively closed: what is downstream of a downstream agent is downstream already. */
  lemma DependenciesTransitive()
    ensures Dependencies.Keys == Agents
    ensures forall a, b :: a in Dependencies && b in Dependencies[a] ==>
      b in Dependencies && forall c :: c in Dependencies[b] ==> c in Dependencies[a]
    ensures forall a, b :: a in Dependencies && b in Dependencies[a] ==> Rank(a) < Rank(b)
  {
  }

  /** `set(agents)` after the `update` loop: the inputs and every listed downstream agent of a known input. */
  function Expanded(s: set<string>): set<string> {
    s + set a, b | a in s && a in Dependencies && b in Dependencies[a] :: b
  }

  /** The elements of `order` that are in `e`, in order (the final list comprehension). */
  function KeepIn(e: set<string>, order: seq<string>): (r: seq<string>)
    ensures |r| <= |order|
  {
    if order == [] then []
    else KeepIn(e, order[..|order| - 1]) + (if order[|order| - 1] in e then [order[|order| - 1]] else [])
  }

  /** `_add_agent_dependencies(agents)`, as a function of the set of input names. */
  function ClosureOf(s: set<string>): seq<string> {
    KeepIn(Expanded(s), ExecutionOrder)
  }

  /** `_add_agent_dependencies(agents)`. */
  function Closure(agents: seq<string>): seq<string> {
    ClosureOf(set a | a in agents)
  }

  /** The method: the `update` loop over the inputs, then the comprehension over the execution order. */
  method AddAgentDependencies(agents: seq<string>) returns (r: seq<string>)
    ensures r == Closure(agents)
  {
    var toRerun: set<string> := set a | a in agents;
    ghost var inputs := toRerun;
    for i := 0 to |agents|
      invariant toRerun == inputs + set a, b | a in agents[..i] && a in Dependencies && b in Dependencies[a] :: b
    {
      var agent := agents[i];
      if agent in Dependencies {
        toRerun := toRerun + set b | b in Dependencies[agent];
      }
      assert agents[..i + 1] == agents[..i] + [agent];
    }
    assert agents[..|agents|] == agents;
    assert toRerun == Expanded(inputs);
    r := [];
    for k := 0 to |ExecutionOrder|
      invariant r == KeepIn(toRerun, ExecutionOrder[..k])
    {
      var agent := ExecutionOrder[k];
      assert ExecutionOrder[..k + 1][..k] == ExecutionOrder[..k];
      if agent in toRerun {
        r := r + [agent];
      }
    }
    assert ExecutionOrder[..|ExecutionOrder|] == ExecutionOrder;
  }

  // ---------- properties ----------

  /** One entry of the pipeline order, kept when it is in `e`. */
  function Keep(a: string, e: set<string>): seq<string> {
    if a in e then [a] else []
  }

  /** The comprehension over the four agents, spelled out. */
  lemma KeepInOrder(e: set<string>)
    ensures KeepIn(e, ExecutionOrder) ==
      Keep(ProductOwner, e) + Keep(Architect, e) + Keep(BackendEngineer, e) + Keep(FrontendEngineer, e)
  {
    var o := ExecutionOrder;
    assert KeepIn(e, o[..1]) == Keep(ProductOwner, e) by { assert o[..1][..0] == []; }
    assert KeepIn(e, o[..2]) == KeepIn(e, o[..1]) + Keep(Architect, e) by { assert o[..2][..1] == o[..1]; }
    assert KeepIn(e, o[..3]) == KeepIn(e, o[..2]) + Keep(BackendEngineer, e) by { assert o[..3][..2] == o[..2]; }
    assert KeepIn(e, o) == KeepIn(e, o[..3]) + Keep(FrontendEngineer, e);
  }

  /** Who lists whom: the table read backwards. */
  lemma UpstreamOf()
    ensures forall a, b :: a in Dependencies && b in Dependencies[a] ==>
      (b == Architect && a == ProductOwner) ||
      (b == BackendEngineer && (a == ProductOwner || a == Architect)) ||
      (b == FrontendEngineer && (a == ProductOwner || a == Architect || a == BackendEngineer))
  {
    forall a, b | a in Dependencies && b in Dependencies[a]
      ensures (b == Architect && a == ProductOwner) ||
        (b == BackendEngineer && (a == ProductOwner || a == Architect)) ||
        (b == FrontendEngineer && (a == ProductOwner || a == Architect || a == BackendEngineer))
    {
      assert a in Agents;
    }
  }

  /** Which agents the expansion contains: an agent is in it when it or an upstream agent is an input. */
  lemma ExpandedAgents(s: set<string>)
    ensures ProductOwner in Expanded(s) <==> ProductOwner in s
    ensures Architect in Expanded(s) <==> Architect in s || ProductOwner in s
    ensures BackendEngineer in Expanded(s) <==> BackendEngineer in s || Architect in s || ProductOwner in s
    ensures FrontendEngineer in Expanded(s) <==>
      FrontendEngineer in s || BackendEngineer in s || Architect in s || ProductOwner in s
  {
    UpstreamOf();
    var down := set a, b | a in s && a in Dependencies && b in Dependencies[a] :: b;
    assert Expanded(s) == s + down;
    forall x | x in down
      ensures (x == Architect && ProductOwner in s) ||
        (x == BackendEngineer && (ProductOwner in s || Architect in s)) ||
        (x == FrontendEngineer && (ProductOwner in s || Architect in s || BackendEngineer in s))
    {
      var a, b :| a in s && a in Dependencies && b in Dependencies[a] && b == x;
    }
    if ProductOwner in s {
      Downstream(s, ProductOwner, 0);
      Downstream(s, ProductOwner, 1);
      Downstream(s, ProductOwner, 2);
    }
    if Architect in s {
      Downstream(s, Architect, 0);
      Downstream(s, Architect, 1);
    }
    if BackendEngineer in s {
      Downstream(s, BackendEngineer, 0);
    }
  }

  /** The `k`-th listed downstream agent of an input is in the expansion. */
  lemma Downstream(s: set<string>, a: string, k: nat)
    requires a in s && a in Dependencies && k < |Dependencies[a]|
    ensures Dependencies[a][k] in Expanded(s)
  {
    var b := Dependencies[a][k];
    assert b in Dependencies[a];
    var down := set a, b | a in s && a in Dependencies && b in Dependencies[a] :: b;
    assert b in down;
  }

  /**
   * Exactly the known inputs and their listed downstream agents are returned; unknown names
   * are dropped.
   */
  lemma ClosureMembers(s: set<string>)
    ensures forall x :: x in ClosureOf(s) <==>
      x in Agents && (x in s || exists a :: a in s && a in Dependencies && x in Dependencies[a])
  {
    KeepInOrder(Expanded(s));
    ExpandedAgents(s);
  }

  /** The result is strictly in pipeline order: a subsequence of it, with no duplicates. */
  lemma ClosureOrdered(s: set<string>)
    ensures forall i :: 0 <= i < |ClosureOf(s)| ==> ClosureOf(s)[i] in Agents
    ensures forall i, j :: 0 <= i < j < |ClosureOf(s)| ==> Rank(ClosureOf(s)[i]) < Rank(ClosureOf(s)[j])
  {
    KeepInOrder(Expanded(s));
  }

  /** No agent appears twice. */
  lemma ClosureDistinct(s: set<string>)
    ensures forall i, j :: 0 <= i < j < |ClosureOf(s)| ==> ClosureOf(s)[i] != ClosureOf(s)[j]
  {
    ClosureOrdered(s);
  }

  /** Nothing in, nothing out. */
  lemma ClosureEmpty()
    ensures ClosureOf({}) == []
  {
    KeepInOrder(Expanded({}));
    ExpandedAgents({});
  }

  /** More inputs never drop an agent. */
  lemma ClosureMonotone(s: set<string>, t: set<string>)
    requires s <= t
    ensures forall x :: x in ClosureOf(s) ==> x in ClosureOf(t)
  {
    ClosureMembers(s);
    ClosureMembers(t);
  }

  /** Re-planning a plan changes nothing (the table being transitively closed). */
  lemma ClosureIdempotent(s: set<string>)
    ensures ClosureOf(set x | x in ClosureOf(s)) == ClosureOf(s)
  {
    var c := set x | x in ClosureOf(s);
    KeepInOrder(Expanded(s));
    ExpandedAgents(s);
    KeepInOrder(Expanded(c));
    ExpandedAgents(c);
  }

  /** A set that every dependency leads back into. */
  predicate DownstreamClosed(t: set<string>) {
    forall a, b :: a in t && a in Dependencies && b in Dependencies[a] ==> b in t
  }

  /**
   * The one-step expansion is the whole closure: the plan is closed under the table, and it
   * is contained in every closed set that contains the known inputs.
   */
  lemma ClosureIsLeast(s: set<string>, t: set<string>)
    requires DownstreamClosed(t) && s * Agents <= t
    ensures DownstreamClosed(set x | x in ClosureOf(s))
    ensures forall x :: x in ClosureOf(s) ==> x in t
  {
    ClosureMembers(s);
    DependenciesTransitive();
  }
}
