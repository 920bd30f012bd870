/** The `Workflow` class of workflows/workflow.py: a dictionary from ids to tool objects that
    the editing methods update in place, the pool of ids ever handed out, and the root. Every
    method is proved to leave the tools in the state that the corresponding function of
    `WorkflowSpec` computes from the state before the call, so the properties proved there
    (the graph invariant, the errors raised, ids never reused) hold of the objects. */
module Workflows {
  import opened Common
  import opened Tools
  import opened WorkflowSpec

  /** The exception a call raised, if any. */
  function RaisedBy<T>(r: Result<T, Raised>): (e: Option<Raised>)
    ensures e.None? <==> r.Ok?
    ensures e.Some? ==> e.value == r.error
  {
    if r.Ok? then None else Some(r.error)
  }

  /** The cleaned form of an optional id list. */
  function DedupAll(ids: Option<seq<int>>): Option<seq<int>> {
    if ids.Some? then Some(Dedup(ids.value)) else None
  }

  /** Checking the ids without repetitions is checking the ids. */
  lemma CleanDedup(g: Graph, ids: seq<int>)
    ensures WorkflowSpec.CleanToolIds(g, Dedup(ids)).None? <==> forall i :: 0 <= i < |ids| ==> ids[i] in g
  {
    var d := Dedup(ids);
    if forall i :: 0 <= i < |ids| ==> ids[i] in g {
      forall j | 0 <= j < |d|
        ensures d[j] in g
      {
        assert d[j] in Elements(ids);
      }
    } else {
      var i :| 0 <= i < |ids| && ids[i] !in g;
      assert ids[i] in Elements(d);
    }
  }

  /** The state of tool `k` while `remove_tool` is unlinking tool `t`, once the outputs in
      `outs` no longer list `t` as an input and the inputs in `ins` no longer list it as an
      output. */
  ghost function UnlinkedAt(g: Graph, t: int, outs: set<int>, ins: set<int>, k: int): ToolState
    requires k in g
  {
    var s1 := if k in outs then WithoutInput(g[k], t) else g[k];
    if k in ins then WithoutOutput(s1, t) else s1
  }

  /** One pass of the loop over `t`'s outputs: output `o` stops listing `t` as an input. */
  lemma UnlinkOutputStep(g0: Graph, g: Graph, t: int, done: set<int>, o: int)
    requires t in g0 && g.Keys == g0.Keys && o in g
    requires forall k :: k in g && k != t ==> g[k] == UnlinkedAt(g0, t, done, {}, k)
    ensures RemoveInputStep(g, o, t).Keys == g0.Keys
    ensures forall k :: k in g && k != t ==>
              RemoveInputStep(g, o, t)[k] == UnlinkedAt(g0, t, done + {o}, {}, k)
    ensures RemoveInputStep(g, o, t)[t].inputs - {t} == g[t].inputs - {t}
  {
    var g1 := RemoveInputStep(g, o, t);
    forall k | k in g && k != t
      ensures g1[k] == UnlinkedAt(g0, t, done + {o}, {}, k)
    {
      if k == o {
        assert g1[k] == WithoutInput(g[k], t);
      } else {
        assert g1[k] == g[k];
      }
    }
  }

  /** One pass of the loop over `t`'s inputs: input `i` stops listing `t` as an output. */
  lemma UnlinkInputStep(g0: Graph, g: Graph, t: int, done: set<int>, i: int)
    requires t in g0 && g.Keys == g0.Keys && i in g
    requires forall k :: k in g && k != t ==> g[k] == UnlinkedAt(g0, t, {}, done, k)
    ensures RemoveInputStep(g, t, i).Keys == g0.Keys
    ensures forall k :: k in g && k != t ==>
              RemoveInputStep(g, t, i)[k] == UnlinkedAt(g0, t, {}, done + {i}, k)
  {
    var g1 := RemoveInputStep(g, t, i);
    forall k | k in g && k != t
      ensures g1[k] == UnlinkedAt(g0, t, {}, done + {i}, k)
    {
      if k == i {
        assert g1[k] == WithoutOutput(g[k], t);
      } else {
        assert g1[k] == g[k];
      }
    }
  }

  /** Tools that agree with `Detach` everywhere but at `t` give `Detach` once `t` is dropped. */
  lemma DetachFrom(g0: Graph, g2: Graph, t: int)
    requires t in g0 && g2.Keys == g0.Keys
    requires forall k :: k in g2 && k != t ==> g2[k] == Detach(g0, t)[k]
    ensures g2 - {t} == Detach(g0, t)
  {
  }

  class Workflow {
    var tools: map<int, Tool>
    var usedIds: set<int>
    const root: Tool

    /** The tools as values. */
    ghost function Snapshot(): Graph
      reads this, tools.Values
    {
      map k | k in tools :: tools[k].State()
    }

    /** No tool object is registered under two ids. */
    ghost predicate Distinguished()
      reads this
    {
      forall i, j :: i in tools && j in tools && i != j ==> tools[i] != tools[j]
    }

    /** The class invariant: the root sits at id 0, the tools form a valid graph, and every id
        in use is in the pool. */
    ghost predicate Valid()
      reads this, tools.Values
    {
      && ROOT_ID in tools && tools[ROOT_ID] == root
      && Distinguished()
      && ValidGraph(Snapshot())
      && tools.Keys <= usedIds
    }

    /** Changing the fields of the one tool object at `tid` changes only that entry of the
        snapshot. */
    twostate lemma OneToolChanged(tid: int)
      requires unchanged(this) && tid in tools && Distinguished()
      requires forall k :: k in tools && k != tid ==> unchanged(tools[k])
      ensures Snapshot() == old(Snapshot())[tid := tools[tid].State()]
    {
      forall k | k in tools && k != tid
        ensures tools[k].State() == old(tools[k].State())
      {
        assert unchanged(tools[k]);
      }
    }

    /** `Workflow()`: just the root, with id 0, which is also the only used id. */
    constructor ()
      ensures Valid() && Snapshot() == NewWorkflow() && usedIds == {ROOT_ID}
    {
      var r := new Tool(ROOT_ID, RootTool);
      root := r;
      tools := map[ROOT_ID := r];
      usedIds := {ROOT_ID};
    }

    /** `__len__`: the number of tools other than the root. */
    function Len(): (n: int)
      reads this
      requires ROOT_ID in tools
      ensures n >= 0 && n == |tools.Keys - {ROOT_ID}|
    {
      |tools| - 1
    }

    /** `_get_tool_by_id`: ToolDoesNotExist for an id without a tool. */
    function GetToolById(id: int): (r: Result<Tool, Raised>)
      reads this
      ensures r.Ok? <==> id in tools
      ensures r.Ok? ==> r.value == tools[id]
      ensures r.Err? ==> r.error == ToolDoesNotExist
    {
      if id in tools then Ok(tools[id]) else Err(ToolDoesNotExist)
    }

    /** `_clean_tool_ids`: the ids without repetitions, or ToolDoesNotExist when any of them
        has no tool. */
    function CleanToolIds(ids: seq<int>): (r: Result<seq<int>, Raised>)
      reads this
      ensures r.Ok? <==> forall i :: 0 <= i < |ids| ==> ids[i] in tools
      ensures r.Ok? ==> IsDeduplication(r.value, ids) && r.value == Dedup(ids)
      ensures r.Ok? ==> forall j :: 0 <= j < |r.value| ==> r.value[j] in tools
      ensures r.Err? ==> r.error == ToolDoesNotExist
    {
      var cleaned := Dedup(ids);
      assert forall i :: 0 <= i < |ids| ==> ids[i] in Elements(cleaned);
      assert forall j :: 0 <= j < |cleaned| ==> cleaned[j] in Elements(ids);
      if forall j :: 0 <= j < |cleaned| ==> cleaned[j] in tools then Ok(cleaned)
      else Err(ToolDoesNotExist)
    }

    /** `_get_next_tool_id`: one more than the largest used id, found by a pass over the pool. */
    method GetNextToolId() returns (n: int)
      requires usedIds != {}
      ensures IsNextId(usedIds, n) && n == NextId(usedIds)
    {
      NonEmpty(usedIds);
      var m :| m in usedIds;
      var rest := usedIds - {m};
      while rest != {}
        invariant rest <= usedIds && m in usedIds
        invariant forall u :: u in usedIds && u !in rest ==> u <= m
        decreases |rest|
      {
        NonEmpty(rest);
        var u :| u in rest;
        if u > m {
          m := u;
        }
        rest := rest - {u};
      }
      n := m + 1;
    }

    /** `_add_tool_id`. */
    method AddToolId(id: int)
      modifies this
      ensures usedIds == old(usedIds) + {id} && tools == old(tools)
    {
      usedIds := usedIds + {id};
    }

    /** One iteration of `add_tool_input`'s loop, corrected: the input tool records the output
        only when the input was really added. */
    method LinkStep(tid: int, x: int)
      requires tid in tools && x in tools && Distinguished()
      modifies tools[tid], tools[x]
      ensures Snapshot() == AddInputStep(old(Snapshot()), tid, x)
    {
      var tool := tools[tid];
      tool.AddInput(x);
      OneToolChanged(tid);
      if x in tool.inputs {
        label L:
        tools[x].AddOutput(tid);
        OneToolChanged@L(x);
      }
    }

    /** One iteration of `remove_tool_input`'s loop. */
    method UnlinkStep(tid: int, x: int)
      requires tid in tools && x in tools && Distinguished()
      modifies tools[tid], tools[x]
      ensures Snapshot() == RemoveInputStep(old(Snapshot()), tid, x)
    {
      tools[tid].RemoveInput(x);
      OneToolChanged(tid);
      label L:
      tools[x].RemoveOutput(tid);
      OneToolChanged@L(x);
    }

    /** The loop of `add_tool_input` over the cleaned ids. */
    method LinkAll(tid: int, order: seq<int>)
      requires tid in tools && Distinguished() && forall i :: 0 <= i < |order| ==> order[i] in tools
      modifies tools.Values
      ensures Snapshot() == AddInputs(old(Snapshot()), tid, order)
    {
      ghost var g0 := Snapshot();
      var i := 0;
      while i < |order|
        invariant 0 <= i <= |order|
        invariant Snapshot() == AddInputs(g0, tid, order[..i])
      {
        assert order[..i + 1][..i] == order[..i];
        LinkStep(tid, order[i]);
        i := i + 1;
      }
      assert order[..|order|] == order;
    }

    /** The loop of `remove_tool_input` over the cleaned ids. */
    method UnlinkAll(tid: int, order: seq<int>)
      requires tid in tools && Distinguished() && forall i :: 0 <= i < |order| ==> order[i] in tools
      modifies tools.Values
      ensures Snapshot() == RemoveInputs(old(Snapshot()), tid, order)
    {
      ghost var g0 := Snapshot();
      var i := 0;
      while i < |order|
        invariant 0 <= i <= |order|
        invariant Snapshot() == RemoveInputs(g0, tid, order[..i])
      {
        assert order[..i + 1][..i] == order[..i];
        UnlinkStep(tid, order[i]);
        i := i + 1;
      }
      assert order[..|order|] == order;
    }

    /** `add_tool_input(tool_id, input_ids)`, with the input tools recording the output only
        for inputs that were really added. */
    method AddToolInput(toolId: int, inputIds: seq<int>) returns (r: Result<Tool, Raised>)
      requires Valid()
      modifies tools.Values
      ensures Valid()
      ensures (Snapshot(), RaisedBy(r)) == WorkflowSpec.AddToolInput(old(Snapshot()), toolId, Dedup(inputIds))
      ensures r.Ok? ==> r.value == tools[toolId]
    {
      var found := GetToolById(toolId);
      if found.Err? {
        return Err(found.error);
      }
      var cleaned := CleanToolIds(inputIds);
      if cleaned.Err? {
        return Err(cleaned.error);
      }
      var order := cleaned.value;
      ghost var g0 := Snapshot();
      LinkAll(toolId, order);
      AddToolInputValid(g0, toolId, order);
      return Ok(found.value);
    }

    /** `remove_tool_input(tool_id, input_ids)`. */
    method RemoveToolInput(toolId: int, inputIds: seq<int>) returns (r: Result<Tool, Raised>)
      requires Valid()
      modifies tools.Values
      ensures Valid()
      ensures (Snapshot(), RaisedBy(r)) == WorkflowSpec.RemoveToolInput(old(Snapshot()), toolId, Dedup(inputIds))
      ensures r.Ok? ==> r.value == tools[toolId]
    {
      var found := GetToolById(toolId);
      if found.Err? {
        return Err(found.error);
      }
      var cleaned := CleanToolIds(inputIds);
      if cleaned.Err? {
        return Err(cleaned.error);
      }
      var order := cleaned.value;
      ghost var g0 := Snapshot();
      UnlinkAll(toolId, order);
      RemoveInputsValid(g0, toolId, order);
      return Ok(found.value);
    }

    /** The first inner loop of `remove_tool`, over a snapshot of the tool's outputs: each
        output stops listing `t` as an input. */
    method UnlinkOutputs(t: int)
      requires Distinguished() && t in tools && Snapshot()[t].outputs <= tools.Keys
      modifies tools.Values
      ensures Snapshot().Keys == old(Snapshot()).Keys
      ensures forall k :: k in tools && k != t ==>
                Snapshot()[k] == UnlinkedAt(old(Snapshot()), t, old(Snapshot())[t].outputs, {}, k)
      ensures Snapshot()[t].inputs - {t} == old(Snapshot())[t].inputs - {t}
    {
      ghost var g0 := Snapshot();
      var tool := tools[t];
      var outs := tool.outputs;
      while outs != {}
        invariant outs <= g0[t].outputs && Snapshot().Keys == g0.Keys
        invariant forall k :: k in tools && k != t ==> Snapshot()[k] == UnlinkedAt(g0, t, g0[t].outputs - outs, {}, k)
        invariant Snapshot()[t].inputs - {t} == g0[t].inputs - {t}
        decreases |outs|
      {
        NonEmpty(outs);
        var o :| o in outs;
        ghost var g := Snapshot();
        UnlinkStep(o, t);
        UnlinkOutputStep(g0, g, t, g0[t].outputs - outs, o);
        assert (g0[t].outputs - outs) + {o} == g0[t].outputs - (outs - {o});
        outs := outs - {o};
      }
    }

    /** The second inner loop of `remove_tool`, over a snapshot of the tool's inputs: each
        input stops listing `t` as an output. */
    method UnlinkInputs(t: int)
      requires Distinguished() && t in tools && Snapshot()[t].inputs <= tools.Keys
      modifies tools.Values
      ensures Snapshot().Keys == old(Snapshot()).Keys
      ensures forall k :: k in tools && k != t ==>
                Snapshot()[k] == UnlinkedAt(old(Snapshot()), t, {}, old(Snapshot())[t].inputs, k)
    {
      ghost var g0 := Snapshot();
      var tool := tools[t];
      var ins := tool.inputs;
      while ins != {}
        invariant ins <= g0[t].inputs && Snapshot().Keys == g0.Keys
        invariant forall k :: k in tools && k != t ==> Snapshot()[k] == UnlinkedAt(g0, t, {}, g0[t].inputs - ins, k)
        decreases |ins|
      {
        NonEmpty(ins);
        var i :| i in ins;
        ghost var g := Snapshot();
        UnlinkStep(t, i);
        UnlinkInputStep(g0, g, t, g0[t].inputs - ins, i);
        assert (g0[t].inputs - ins) + {i} == g0[t].inputs - (ins - {i});
        ins := ins - {i};
      }
    }

    /** Both inner loops of `remove_tool`: afterwards every other tool is as `Detach` says. */
    method Unlink(t: int)
      requires Distinguished() && t in tools
      requires Snapshot()[t].inputs <= tools.Keys && Snapshot()[t].outputs <= tools.Keys
      modifies tools.Values
      ensures Snapshot().Keys == old(Snapshot()).Keys
      ensures forall k :: k in tools && k != t ==> Snapshot()[k] == Detach(old(Snapshot()), t)[k]
    {
      ghost var g0 := Snapshot();
      UnlinkOutputs(t);
      ghost var g1 := Snapshot();
      ghost var ins1, ins0 := g1[t].inputs, g0[t].inputs;
      assert ins1 - {t} == ins0 - {t};
      assert ins1 <= (ins0 - {t}) + {t};
      UnlinkInputs(t);
      forall k | k in tools && k != t
        ensures Snapshot()[k] == Detach(g0, t)[k]
      {
        assert g1[k] == UnlinkedAt(g0, t, g0[t].outputs, {}, k);
        assert k in ins1 <==> k in ins0 by {
          assert k in ins1 - {t} <==> k in ins0 - {t};
        }
      }
    }

    /** `del self._tools[tool_id]`. */
    method Delete(t: int)
      requires Distinguished()
      modifies this
      ensures tools == old(tools) - {t} && usedIds == old(usedIds) && Distinguished()
      ensures Snapshot() == old(Snapshot()) - {t}
      ensures tools.Values <= old(tools.Values)
    {
      RemovalValues(tools, t);
      tools := tools - {t};
    }

    /** The body of `remove_tool`'s loop for a non-root tool, iterating over snapshots of its
        outputs and inputs, then deleting it. */
    method DetachTool(t: int)
      requires Valid() && t in tools && t != ROOT_ID
      modifies this, tools.Values
      ensures Valid() && usedIds == old(usedIds)
      ensures Snapshot() == Detach(old(Snapshot()), t)
      ensures tools.Values <= old(tools.Values)
    {
      ghost var g0 := Snapshot();
      assert g0[t].inputs <= tools.Keys && g0[t].outputs <= tools.Keys;
      Unlink(t);
      ghost var g2 := Snapshot();
      Delete(t);
      assert Snapshot() == Detach(g0, t) by { DetachFrom(g0, g2, t); }
      assert ValidGraph(Snapshot()) by { DetachValid(g0, t); }
    }

    /** The loop of `remove_tool` over the cleaned ids. */
    method RemoveEachTool(order: seq<int>) returns (raised: Option<Raised>)
      requires Valid()
      modifies this, tools.Values
      ensures Valid() && usedIds == old(usedIds)
      ensures (Snapshot(), raised) == RemoveEach(old(Snapshot()), order)
    {
      ghost var g0 := Snapshot();
      var i := 0;
      while i < |order|
        invariant 0 <= i <= |order|
        invariant Valid() && usedIds == old(usedIds) && tools.Values <= old(tools.Values)
        invariant RemoveEach(Snapshot(), order[i..]) == RemoveEach(g0, order)
      {
        ghost var cur := Snapshot();
        ghost var rest := order[i..];
        var t := order[i];
        var found := GetToolById(t);
        if found.Err? {
          assert t !in cur;
          return Some(found.error);
        }
        if IsRoot(found.value.toolClass) {
          assert IsRoot(cur[t].toolClass);
          return Some(RootCannotBeDeleted);
        }
        ValidRootOnlyAtZero(cur);
        assert rest[0] == t && rest[1..] == order[i + 1..];
        assert RemoveEach(cur, rest) == RemoveEach(Detach(cur, t), order[i + 1..]);
        DetachTool(t);
        i := i + 1;
      }
      return None;
    }

    /** `remove_tool(tool_ids)`, iterating over snapshots of each tool's links. */
    method RemoveTool(ids: seq<int>) returns (raised: Option<Raised>)
      requires Valid()
      modifies this, tools.Values
      ensures Valid() && usedIds == old(usedIds)
      ensures (Snapshot(), raised) == WorkflowSpec.RemoveTool(old(Snapshot()), Dedup(ids))
    {
      var cleaned := CleanToolIds(ids);
      if cleaned.Err? {
        return Some(cleaned.error);
      }
      raised := RemoveEachTool(cleaned.value);
    }

    /** The registration in `insert_tool`: the new tool object under its id, and the id in
        the pool. */
    method Register(tool: Tool)
      requires Distinguished() && tool !in tools.Values
      modifies this
      ensures tools == old(tools)[tool.id := tool] && usedIds == old(usedIds) + {tool.id}
      ensures Distinguished()
      ensures Snapshot() == old(Snapshot())[tool.id := tool.State()]
    {
      tools := tools[tool.id := tool];
      AddToolId(tool.id);
    }

    /** The loop over `output_ids` in `insert_tool`: `add_tool_input(output_id, new_id)` for
        each cleaned output id. */
    method AddAsInputOfAll(newId: int, order: seq<int>)
      requires Valid() && newId in tools && forall i :: 0 <= i < |order| ==> order[i] in tools
      modifies tools.Values
      ensures Valid()
      ensures Snapshot() == AddAsInputOf(old(Snapshot()), newId, order)
    {
      ghost var g0 := Snapshot();
      var i := 0;
      while i < |order|
        invariant 0 <= i <= |order|
        invariant Valid()
        invariant Snapshot() == AddAsInputOf(g0, newId, order[..i])
      {
        assert order[..i + 1][..i] == order[..i];
        assert Dedup([newId]) == [newId];
        var added := AddToolInput(order[i], [newId]);
        i := i + 1;
      }
      assert order[..|order|] == order;
    }

    /** The part of `insert_tool` after the registration of tool `id`. */
    method InsertEdges(id: int, inputIds: Option<seq<int>>, outputIds: Option<seq<int>>,
                       c: Option<CoordinatesArg>) returns (raised: Option<Raised>)
      requires Valid() && id in tools
      modifies tools.Values
      ensures Valid()
      ensures (Snapshot(), raised) == WorkflowSpec.InsertEdges(old(Snapshot()), id, DedupAll(inputIds), DedupAll(outputIds), c)
    {
      ghost var g1 := Snapshot();
      ghost var ins, outs := DedupAll(inputIds), DedupAll(outputIds);
      ghost var spec := WorkflowSpec.InsertEdges(g1, id, ins, outs, c);
      if inputIds.Some? {
        var added := AddToolInput(id, inputIds.value);
        if added.Err? {
          return Some(added.error);
        }
      }
      ghost var g2 := Snapshot();
      assert g2 == (if ins.Some? then WorkflowSpec.AddToolInput(g1, id, ins.value) else (g1, None)).0;
      if outputIds.Some? {
        raised := AddAsInputOfCleaned(id, outputIds.value);
        if raised.Some? {
          return;
        }
      }
      ghost var g3 := Snapshot();
      assert g3 == if outs.Some? then AddAsInputOf(g2, id, outs.value) else g2;
      assert spec == if c.Some? then WorkflowSpec.SetToolCoordinates(g3, id, c) else (g3, None);
      if c.Some? {
        var placed := SetToolCoordinates(id, c);
        return RaisedBy(placed);
      }
      return None;
    }

    /** The loop over `output_ids` in `insert_tool`, preceded by the cleaning of the ids. */
    method AddAsInputOfCleaned(id: int, outputIds: seq<int>) returns (raised: Option<Raised>)
      requires Valid() && id in tools
      modifies tools.Values
      ensures Valid()
      ensures raised == WorkflowSpec.CleanToolIds(old(Snapshot()), Dedup(outputIds))
      ensures Snapshot() == if raised.Some? then old(Snapshot()) else AddAsInputOf(old(Snapshot()), id, Dedup(outputIds))
    {
      ghost var g := Snapshot();
      CleanDedup(g, outputIds);
      var cleaned := CleanToolIds(outputIds);
      if cleaned.Err? {
        return Some(cleaned.error);
      }
      AddAsInputOfAll(id, cleaned.value);
      return None;
    }

    /** The registration in `insert_tool`: a new tool of the class under the next id. */
    method RegisterNew(toolClass: ToolClass) returns (tool: Tool)
      requires Valid() && IsChoiceClass(toolClass)
      modifies this
      ensures Valid() && fresh(tool) && tool.id == NextId(old(usedIds))
      ensures tool.id in tools && tools[tool.id] == tool && tools.Values <= old(tools.Values) + {tool}
      ensures (Snapshot(), usedIds) == Registered(old(Snapshot()), old(usedIds), toolClass)
    {
      ghost var g0, used0 := Snapshot(), usedIds;
      var nextId := GetNextToolId();
      tool := new Tool(nextId, toolClass);
      assert Snapshot() == g0;
      Register(tool);
      ghost var g1 := Snapshot();
      assert (g1, usedIds) == Registered(g0, used0, toolClass);
      assert ValidGraph(g1) by { RegisteredValid(g0, used0, toolClass); }
      assert tools.Keys <= usedIds;
      assert tools[ROOT_ID] == root by { NextIdIsFresh(used0); }
      assert tools.Values <= old(tools.Values) + {tool} by {
        forall o | o in tools.Values
          ensures o in old(tools.Values) + {tool}
        {
          var k :| k in tools && tools[k] == o;
          assert k != nextId ==> old(tools)[k] == o;
        }
      }
    }

    /** `insert_tool(tool_choice, input_ids, output_ids, coordinates)`. */
    method InsertTool(choice: string, inputIds: Option<seq<int>>, outputIds: Option<seq<int>>,
                      c: Option<CoordinatesArg>) returns (r: Result<Tool, Raised>)
      requires Valid()
      modifies this, tools.Values
      ensures Valid()
      ensures (Snapshot(), usedIds, RaisedBy(r)) ==
                WorkflowSpec.InsertTool(old(Snapshot()), old(usedIds), choice, DedupAll(inputIds), DedupAll(outputIds), c)
      ensures r.Ok? ==> fresh(r.value) && r.value.id == NextId(old(usedIds)) && r.value.id in tools && tools[r.value.id] == r.value
    {
      var toolClass := ToolChoice(choice);
      if toolClass.None? {
        return Err(ToolNotAvailable);
      }
      RootIsNotAChoice();
      ghost var g0, used0 := Snapshot(), usedIds;
      var tool := RegisterNew(toolClass.value);
      ghost var g1, used1 := Snapshot(), usedIds;
      var raised := InsertEdges(tool.id, inputIds, outputIds, c);
      assert (Snapshot(), raised) == WorkflowSpec.InsertEdges(g1, NextId(used0), DedupAll(inputIds), DedupAll(outputIds), c);
      assert (Snapshot(), usedIds, raised) ==
        WorkflowSpec.InsertTool(g0, used0, choice, DedupAll(inputIds), DedupAll(outputIds), c);
      if raised.Some? {
        return Err(raised.value);
      }
      return Ok(tool);
    }

    /** `set_tool_coordinates(tool_id, coordinates)`: without coordinates the default (0, 0)
        is used; the coordinates setter's exception propagates. */
    method SetToolCoordinates(toolId: int, c: Option<CoordinatesArg>) returns (r: Result<Tool, Raised>)
      requires Valid()
      modifies tools.Values
      ensures Valid()
      ensures (Snapshot(), RaisedBy(r)) == WorkflowSpec.SetToolCoordinates(old(Snapshot()), toolId, c)
      ensures r.Ok? ==> r.value == tools[toolId]
    {
      var found := GetToolById(toolId);
      if found.Err? {
        return Err(found.error);
      }
      var tool := found.value;
      ghost var g0 := Snapshot();
      var coordinates := if c.Some? then c.value else Integers(0, 0);
      var outcome := tool.SetCoordinates(coordinates);
      OneToolChanged(toolId);
      SettersValid(g0, toolId, c, map[], _ => Rejected(""));
      if outcome != Done {
        return Err(SetterRaised(outcome));
      }
      return Ok(tool);
    }

    /** `set_tool_config(tool_id, data)`, with `validate` standing for the construction of the
        tool's pydantic configuration class; the config setter's exception propagates. */
    method SetToolConfig(toolId: int, data: ConfigData, validate: ConfigData -> Validation) returns (r: Result<Tool, Raised>)
      requires Valid()
      modifies tools.Values
      ensures Valid()
      ensures (Snapshot(), RaisedBy(r)) == WorkflowSpec.SetToolConfig(old(Snapshot()), toolId, data, validate)
      ensures r.Ok? ==> r.value == tools[toolId]
    {
      var found := GetToolById(toolId);
      if found.Err? {
        return Err(found.error);
      }
      var tool := found.value;
      ghost var g0 := Snapshot();
      var outcome := tool.SetConfig(data, validate);
      OneToolChanged(toolId);
      SettersValid(g0, toolId, None, data, validate);
      if outcome != Done {
        return Err(SetterRaised(outcome));
      }
      return Ok(tool);
    }
  }
}
