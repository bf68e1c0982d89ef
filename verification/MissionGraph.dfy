/**
 The dependency check a mission passes before it runs: a depth-first search with
 a set of ids being visited and a set of ids finished.
 */
module MissionGraph {
  import opened Common

  datatype ConditionAction = Continue | Skip | Retry | Abort

  datatype Subtask = Subtask(
    subtaskId: string,
    taskId: string,
    taskName: string,
    allowSkipping: bool,
    maxAttempts: nat,
    retryErrorCodes: seq<string>,
    dependsOn: seq<string>,
    condition: ConditionAction)

  datatype GraphError =
    | DuplicateIds(ids: set<string>)
    | UnknownDependencies(subtaskId: string, unknown: set<string>)
    | DependencyCycle(subtaskId: string)

  /** Dependencies of each subtask id, in payload order. */
  type Graph = map<string, seq<string>>

  ghost predicate UniqueIds(subtasks: seq<Subtask>) {
    forall i, j :: 0 <= i < j < |subtasks| ==> subtasks[i].subtaskId != subtasks[j].subtaskId
  }

  function Ids(subtasks: seq<Subtask>): set<string> {
    set i | 0 <= i < |subtasks| :: subtasks[i].subtaskId
  }

  ghost predicate KnownDependencies(subtasks: seq<Subtask>) {
    forall i, d :: 0 <= i < |subtasks| && d in subtasks[i].dependsOn ==> d in Ids(subtasks)
  }

  /** The id-to-subtask dictionary, reduced to dependencies. As in the source, the
      last subtask with an id wins. */
  function ById(subtasks: seq<Subtask>): (g: Graph)
    ensures g.Keys == Ids(subtasks)
  {
    if subtasks == [] then map[]
    else
      var last := subtasks[|subtasks| - 1];
      ById(subtasks[..|subtasks| - 1])[last.subtaskId := last.dependsOn]
  }

  lemma {:induction false} ByIdSelects(subtasks: seq<Subtask>, i: nat)
    requires UniqueIds(subtasks) && i < |subtasks|
    ensures subtasks[i].subtaskId in ById(subtasks)
    ensures ById(subtasks)[subtasks[i].subtaskId] == subtasks[i].dependsOn
  {
    if i < |subtasks| - 1 {
      assert subtasks[..|subtasks| - 1][i] == subtasks[i];
      ByIdSelects(subtasks[..|subtasks| - 1], i);
    }
  }

  // ---------------------------------------------------------------- paths and cycles

  ghost predicate Edge(g: Graph, a: string, b: string) {
    a in g && b in g[a]
  }

  /** A chain of subtasks, each depending on the next. */
  ghost predicate IsPath(g: Graph, p: seq<string>) {
    |p| >= 1 && forall i :: 0 <= i < |p| - 1 ==> Edge(g, p[i], p[i + 1])
  }

  ghost predicate OnCycle(g: Graph, id: string) {
    exists p :: IsPath(g, p) && |p| >= 2 && p[0] == id && p[|p| - 1] == id
  }

  ghost predicate Acyclic(g: Graph) {
    forall id :: !OnCycle(g, id)
  }

  ghost predicate ValidGraph(subtasks: seq<Subtask>) {
    UniqueIds(subtasks) && KnownDependencies(subtasks) && Acyclic(ById(subtasks))
  }

  /** A rank that decreases along every dependency. */
  ghost predicate IsRank(g: Graph, rank: map<string, nat>) {
    && g.Keys <= rank.Keys
    && forall a, b :: Edge(g, a, b) ==> b in rank && rank[b] < rank[a]
  }

  lemma {:induction false} RankFallsAlongPath(g: Graph, rank: map<string, nat>, p: seq<string>)
    requires IsRank(g, rank) && IsPath(g, p) && |p| >= 2
    ensures p[0] in rank && p[|p| - 1] in rank && rank[p[|p| - 1]] < rank[p[0]]
  {
    assert Edge(g, p[0], p[1]);
    if |p| > 2 {
      forall i | 0 <= i < |p[1..]| - 1 ensures Edge(g, p[1..][i], p[1..][i + 1]) {
        assert Edge(g, p[i + 1], p[i + 2]);
      }
      RankFallsAlongPath(g, rank, p[1..]);
    }
  }

  /** A rank exists only on graphs without cycles. */
  lemma {:induction false} RankedIsAcyclic(g: Graph, rank: map<string, nat>)
    requires IsRank(g, rank)
    ensures Acyclic(g)
  {
    forall id ensures !OnCycle(g, id) {
      if OnCycle(g, id) {
        var p :| IsPath(g, p) && |p| >= 2 && p[0] == id && p[|p| - 1] == id;
        RankFallsAlongPath(g, rank, p);
        assert false;
      }
    }
  }

  // ---------------------------------------------------------------- the search

  /** Every dependency of f[i] stands before position i. */
  ghost predicate DependenciesFirst(g: Graph, f: seq<string>) {
    && Distinct(f)
    && forall i :: 0 <= i < |f| ==> f[i] in g && forall d :: d in g[f[i]] ==> d in f[..i]
  }

  /** The recursion stack: a path of ids being visited. */
  ghost predicate IsStack(g: Graph, stack: seq<string>) {
    stack != [] ==> IsPath(g, stack)
  }

  lemma {:induction false} StackClosesCycle(g: Graph, stack: seq<string>, id: string)
    requires stack != [] && IsPath(g, stack) && id in stack && Edge(g, stack[|stack| - 1], id)
    ensures OnCycle(g, id)
  {
    var k :| 0 <= k < |stack| && stack[k] == id;
    var p := stack[k..] + [id];
    forall i | 0 <= i < |p| - 1 ensures Edge(g, p[i], p[i + 1]) {
      if i < |p| - 2 {
        assert Edge(g, stack[k + i], stack[k + i + 1]);
      }
    }
    assert IsPath(g, p);
  }

  lemma {:induction false} FinishedExtends(g: Graph, f: seq<string>, id: string)
    requires DependenciesFirst(g, f) && id in g && id !in f
    requires forall d :: d in g[id] ==> d in f
    ensures DependenciesFirst(g, f + [id])
  {
    var f' := f + [id];
    forall i | 0 <= i < |f'| ensures f'[i] in g && forall d :: d in g[f'[i]] ==> d in f'[..i] {
      if i < |f| {
        assert f'[..i] == f[..i];
      } else {
        assert f'[..i] == f;
      }
    }
  }

  lemma {:induction false} MeetingClosesCycle(g: Graph, stack: seq<string>, id: string)
    requires IsStack(g, stack) && id in Elements(stack) && Elements(stack) <= g.Keys
    requires stack != [] ==> stack[|stack| - 1] in g && id in g[stack[|stack| - 1]]
    ensures OnCycle(g, id)
  {
    StackClosesCycle(g, stack, id);
  }

  lemma {:induction false} PushKeepsStack(g: Graph, stack: seq<string>, id: string)
    requires IsStack(g, stack) && id in g
    requires stack != [] ==> stack[|stack| - 1] in g && id in g[stack[|stack| - 1]]
    ensures IsStack(g, stack + [id]) && Elements(stack + [id]) == Elements(stack) + {id}
  {
    forall i | 0 <= i < |stack + [id]| - 1 ensures Edge(g, (stack + [id])[i], (stack + [id])[i + 1]) {
      if i < |stack| - 1 {
        assert Edge(g, stack[i], stack[i + 1]);
      }
    }
  }

  lemma {:induction false} LastIsElement(s: seq<string>)
    ensures s != [] ==> s[|s| - 1] in Elements(s)
  {
  }

  lemma {:induction false} Finish(g: Graph, f: seq<string>, id: string)
    requires DependenciesFirst(g, f) && id in g && id !in Elements(f)
    requires forall d :: d in g[id] ==> d in Elements(f)
    ensures DependenciesFirst(g, f + [id]) && Elements(f + [id]) == Elements(f) + {id}
  {
    hide DependenciesFirst;
    FinishedExtends(g, f, id);
  }

  function PositionRank(f: seq<string>): (rank: map<string, nat>)
    ensures rank.Keys == Elements(f)
  {
    map x | x in f :: FirstIndex(f, x)
  }

  function FirstIndex(f: seq<string>, x: string): (i: nat)
    requires x in f
    ensures i < |f| && f[i] == x && forall j :: 0 <= j < i ==> f[j] != x
  {
    if f[0] == x then 0 else 1 + FirstIndex(f[1..], x)
  }

  lemma {:induction false} FinishOrderIsRank(g: Graph, f: seq<string>)
    requires DependenciesFirst(g, f) && g.Keys <= Elements(f)
    ensures IsRank(g, PositionRank(f))
  {
    var rank := PositionRank(f);
    forall a, b | Edge(g, a, b) ensures b in rank && rank[b] < rank[a] {
      var i := FirstIndex(f, a);
      assert b in f[..i];
      var j :| 0 <= j < i && f[..i][j] == b;
      assert f[j] == b && FirstIndex(f, b) <= j;
    }
  }

  /** The two sets shared by the nested visit function. The stack and the finishing
      order are ghosts: the source keeps them as the call stack and not at all. */
  class GraphVisitor {
    const byId: Graph
    var visiting: set<string>
    var visited: set<string>
    ghost var stack: seq<string>
    ghost var finished: seq<string>

    ghost predicate Valid()
      reads this
    {
      && (forall a, d :: a in byId && d in byId[a] ==> d in byId)
      && IsStack(byId, stack)
      && visiting == Elements(stack)
      && visiting <= byId.Keys
      && DependenciesFirst(byId, finished)
      && visited == Elements(finished)
      && visited !! visiting
    }

    constructor (g: Graph)
      requires forall a, d :: a in g && d in g[a] ==> d in g
      ensures Valid() && byId == g && stack == [] && visited == {}
    {
      byId := g;
      visiting := {};
      visited := {};
      stack := [];
      finished := [];
    }

    /** Returns the id at which a cycle was noticed, or None. */
    method Visit(id: string) returns (cycle: Option<string>)
      requires Valid() && id in byId
      requires stack != [] ==> id in byId[stack[|stack| - 1]]
      modifies this
      ensures cycle.None? ==>
                && Valid()
                && stack == old(stack)
                && old(visited) <= visited
                && id in visited
      ensures cycle.Some? ==> OnCycle(byId, cycle.value)
      decreases byId.Keys - visiting
    {
      hide IsStack, DependenciesFirst, OnCycle, Elements;
      LastIsElement(stack);
      if id in visited {
        return None;
      }
      if id in visiting {
        MeetingClosesCycle(byId, stack, id);
        return Some(id);
      }
      PushKeepsStack(byId, stack, id);
      visiting := visiting + {id};
      stack := stack + [id];
      var dependencies := byId[id];
      for k := 0 to |dependencies|
        invariant Valid() && stack == old(stack) + [id] && visiting == old(visiting) + {id}
        invariant old(visited) <= visited
        invariant forall j :: 0 <= j < k ==> dependencies[j] in visited
      {
        var found := Visit(dependencies[k]);
        if found.Some? {
          return found;
        }
      }
      Finish(byId, finished, id);
      assert stack[..|stack| - 1] == old(stack);
      visiting := visiting - {id};
      visited := visited + {id};
      stack := stack[..|stack| - 1];
      finished := finished + [id];
      return None;
    }
  }

  /** Ids that occur more than once. */
  function DuplicatedIds(subtasks: seq<Subtask>): (r: set<string>)
    ensures r == {} <==> UniqueIds(subtasks)
    ensures forall x :: x in r <==>
              exists i, j :: 0 <= i < j < |subtasks| && subtasks[i].subtaskId == x && subtasks[j].subtaskId == x
  {
    var r := set i, j | 0 <= i < j < |subtasks| && subtasks[i].subtaskId == subtasks[j].subtaskId
               :: subtasks[i].subtaskId;
    assert forall i, j :: 0 <= i < j < |subtasks| && subtasks[i].subtaskId == subtasks[j].subtaskId
             ==> subtasks[i].subtaskId in r;
    r
  }

  /** Accepts exactly the payloads with unique ids, known dependencies and no cycle;
      an acceptance comes with an order that puts every dependency first. */
  method ValidateSubtaskGraph(subtasks: seq<Subtask>)
    returns (error: Option<GraphError>, ghost order: seq<string>)
    ensures error.None? <==> ValidGraph(subtasks)
    ensures error.None? ==>
              && Elements(order) == Ids(subtasks)
              && DependenciesFirst(ById(subtasks), order)
              && IsRank(ById(subtasks), PositionRank(order))
    ensures error.Some? && error.value.DuplicateIds? ==>
              && error.value.ids == DuplicatedIds(subtasks)
              && !UniqueIds(subtasks)
    ensures error.Some? && error.value.UnknownDependencies? ==>
              && UniqueIds(subtasks)
              && error.value.unknown != {}
              && exists i :: && 0 <= i < |subtasks|
                             && subtasks[i].subtaskId == error.value.subtaskId
                             && error.value.unknown == Elements(subtasks[i].dependsOn) - Ids(subtasks)
                             && forall k :: 0 <= k < i ==> Elements(subtasks[k].dependsOn) <= Ids(subtasks)
    ensures error.Some? && error.value.DependencyCycle? ==>
              && UniqueIds(subtasks)
              && KnownDependencies(subtasks)
              && OnCycle(ById(subtasks), error.value.subtaskId)
  {
    order := [];
    var duplicates := DuplicatedIds(subtasks);
    if duplicates != {} {
      return Some(DuplicateIds(duplicates)), [];
    }
    var known := Ids(subtasks);
    for i := 0 to |subtasks|
      invariant forall k :: 0 <= k < i ==> Elements(subtasks[k].dependsOn) <= known
    {
      var unknown := Elements(subtasks[i].dependsOn) - known;
      if unknown != {} {
        return Some(UnknownDependencies(subtasks[i].subtaskId, unknown)), [];
      }
      assert forall d :: d in Elements(subtasks[i].dependsOn) ==> d in unknown || d in known;
    }
    KnownFromSubsets(subtasks);
    DependenciesStayInside(subtasks);
    var ids := seq(|subtasks|, i requires 0 <= i < |subtasks| => subtasks[i].subtaskId);
    assert Elements(ids) == Ids(subtasks) by {
      assert forall i :: 0 <= i < |ids| ==> ids[i] == subtasks[i].subtaskId;
    }
    var cycle;
    cycle, order := FindCycle(ById(subtasks), ids);
    error := if cycle.Some? then Some(DependencyCycle(cycle.value)) else None;
  }

  /** Visits every id in turn. */
  method FindCycle(g: Graph, ids: seq<string>) returns (cycle: Option<string>, ghost order: seq<string>)
    requires g.Keys == Elements(ids)
    requires forall a, d :: a in g && d in g[a] ==> d in g
    ensures cycle.None? <==> Acyclic(g)
    ensures cycle.Some? ==> OnCycle(g, cycle.value)
    ensures cycle.None? ==>
              && Elements(order) == Elements(ids)
              && DependenciesFirst(g, order)
              && IsRank(g, PositionRank(order))
  {
    hide OnCycle, DependenciesFirst, IsStack, IsRank;
    order := [];
    var visitor := new GraphVisitor(g);
    for i := 0 to |ids|
      invariant visitor.Valid() && visitor.stack == [] && visitor.byId == g
      invariant forall k :: 0 <= k < i ==> ids[k] in visitor.visited
    {
      cycle := visitor.Visit(ids[i]);
      if cycle.Some? {
        return;
      }
    }
    cycle := None;
    order := visitor.finished;
    VisitedIsKnown(g, ids, order);
    FinishOrderIsRank(g, order);
    RankedIsAcyclic(g, PositionRank(order));
  }

  lemma {:induction false} VisitedIsKnown(g: Graph, ids: seq<string>, f: seq<string>)
    requires DependenciesFirst(g, f) && g.Keys == Elements(ids)
    requires forall k :: 0 <= k < |ids| ==> ids[k] in Elements(f)
    ensures Elements(f) == Elements(ids)
  {
    forall x | x in Elements(f) ensures x in Elements(ids) {
      var i :| 0 <= i < |f| && f[i] == x;
      assert f[i] in g;
    }
  }

  lemma {:induction false} KnownFromSubsets(subtasks: seq<Subtask>)
    requires forall k :: 0 <= k < |subtasks| ==> Elements(subtasks[k].dependsOn) <= Ids(subtasks)
    ensures KnownDependencies(subtasks)
  {
    forall i, d | 0 <= i < |subtasks| && d in subtasks[i].dependsOn ensures d in Ids(subtasks) {
      assert d in Elements(subtasks[i].dependsOn);
    }
  }

  lemma {:induction false} DependenciesStayInside(subtasks: seq<Subtask>)
    requires UniqueIds(subtasks) && KnownDependencies(subtasks)
    ensures forall a, d :: a in ById(subtasks) && d in ById(subtasks)[a] ==> d in ById(subtasks)
  {
    forall a, d | a in ById(subtasks) && d in ById(subtasks)[a] ensures d in ById(subtasks) {
      var i :| 0 <= i < |subtasks| && subtasks[i].subtaskId == a;
      ByIdSelects(subtasks, i);
    }
  }
}
