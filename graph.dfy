/** The in-memory workflow editor (workflows/workflow.py) as functions on values: a workflow's
    tools are a map from id to `ToolState`, and each editing operation maps the old map to the
    new one together with the exception it raises, if any (an exception can leave earlier
    changes behind, as in the source). The class `Workflows.Workflow` is proved to perform
    exactly these functions. */
module WorkflowSpec {
  import opened Common
  import opened Tools

  /** The workflow's `_tools` dict with every tool object replaced by its state. */
  type Graph = map<int, ToolState>

  /** The id of the permanent root tool. */
  const ROOT_ID: int := 0

  /** The exceptions an editing operation can raise. */
  datatype Raised =
    | ToolNotAvailable
    | ToolDoesNotExist
    | RootCannotBeDeleted
    | SetterRaised(outcome: SetterOutcome)  // TypeError, ValueError or ConfigClassIsNotDefined from a setter
    | SetChangedSizeDuringIteration         // CPython's RuntimeError; only the as-written removal raises it

  /** `TOOL_CHOICES`: the tool classes a caller can insert, by name. */
  function ToolChoice(choice: string): (r: Option<ToolClass>)
    ensures r.Some? <==> choice in {"generic", "large_generic", "input"}
    ensures r.Some? ==> !IsRoot(r.value)
  {
    if choice == "generic" then Some(GenericTool)
    else if choice == "large_generic" then Some(LargeGenericTool)
    else if choice == "input" then Some(InputTool)
    else None
  }

  /** The root's class cannot be chosen by name, so `insert_tool("root")` raises
      ToolNotAvailable. */
  lemma RootIsNotAChoice()
    ensures ToolChoice("root").None?
    ensures forall choice :: ToolChoice(choice).Some? ==> IsChoiceClass(ToolChoice(choice).value)
  {
  }

  predicate IsChoiceClass(c: ToolClass) {
    c == GenericTool || c == LargeGenericTool || c == InputTool
  }

  // ---------------------------------------------------------------------------------------
  // Invariants

  /** Tools are stored under their own ids; the root sits at id 0 and is the only root; every
      tool respects its input capacity. */
  predicate WellIdentified(g: Graph) {
    && ROOT_ID in g && g[ROOT_ID].toolClass == RootTool
    && (forall k :: k in g ==> g[k].id == k && WithinCapacity(g[k]))
    && (forall k :: k in g && k != ROOT_ID ==> IsChoiceClass(g[k].toolClass))
  }

  /** Every id listed in some tool's inputs or outputs is a tool of the workflow. */
  predicate Closed(g: Graph) {
    forall k :: k in g ==> g[k].inputs <= g.Keys && g[k].outputs <= g.Keys
  }

  /** `b in a.inputs` implies `a in b.outputs`. */
  predicate InputsMirrored(g: Graph) {
    forall a, b :: a in g && b in g && b in g[a].inputs ==> a in g[b].outputs
  }

  /** `a in b.outputs` implies `b in a.inputs`. */
  predicate OutputsMirrored(g: Graph) {
    forall a, b :: a in g && b in g && a in g[b].outputs ==> b in g[a].inputs
  }

  /** The invariant of a workflow: `outputs` is exactly the inverse of `inputs`. */
  predicate ValidGraph(g: Graph) {
    WellIdentified(g) && Closed(g) && InputsMirrored(g) && OutputsMirrored(g)
  }

  /** No tool of `g` lists `t` as an input or an output. */
  predicate Unreferenced(g: Graph, t: int) {
    forall k :: k in g ==> t !in g[k].inputs && t !in g[k].outputs
  }

  // ---------------------------------------------------------------------------------------
  // Construction, size, ids

  /** `Workflow.__init__`: only the root, with id 0. */
  function NewWorkflow(): (g: Graph)
    ensures g.Keys == {ROOT_ID} && g[ROOT_ID] == NewTool(ROOT_ID, RootTool)
    ensures ValidGraph(g)
  {
    map[ROOT_ID := NewTool(ROOT_ID, RootTool)]
  }

  /** `__len__`: the number of tools other than the root. */
  function Size(g: Graph): (n: int)
    requires ROOT_ID in g
    ensures n >= 0 && n == |g.Keys - {ROOT_ID}|
  {
    assert g.Keys == (g.Keys - {ROOT_ID}) + {ROOT_ID};
    |g| - 1
  }

  /** A fresh workflow has size 0. */
  lemma NewWorkflowIsEmpty()
    ensures Size(NewWorkflow()) == 0
  {
  }

  /** `n` is `max(used) + 1`. */
  predicate IsNextId(used: set<int>, n: int) {
    n - 1 in used && forall u :: u in used ==> u < n
  }

  /** A finite, non-empty pool of ids has a largest element. */
  lemma {:induction false} MaxExists(used: set<int>)
    requires used != {}
    ensures exists m :: m in used && forall u :: u in used ==> u <= m
    decreases |used|
  {
    NonEmpty(used);
    var x :| x in used;
    if used != {x} {
      MaxExists(used - {x});
      var m :| m in used - {x} && forall u :: u in used - {x} ==> u <= m;
      var big := if x <= m then m else x;
      forall u | u in used
        ensures u <= big
      {
        if u != x {
          assert u in used - {x};
        }
      }
    }
  }

  /** `_get_next_tool_id`. */
  ghost function NextId(used: set<int>): (n: int)
    requires used != {}
    ensures IsNextId(used, n)
  {
    MaxExists(used);
    var m :| m in used && forall u :: u in used ==> u <= m;
    m + 1
  }

  /** The next id is new to the pool, larger than every id ever used, and never 0. */
  lemma NextIdIsFresh(used: set<int>)
    requires ROOT_ID in used
    ensures NextId(used) !in used && NextId(used) > ROOT_ID
    ensures forall u :: u in used ==> u < NextId(used)
  {
  }

  // ---------------------------------------------------------------------------------------
  // _clean_tool_ids

  /** The check of `_clean_tool_ids`: it raises ToolDoesNotExist when some id is not a tool. */
  function CleanToolIds(g: Graph, ids: seq<int>): (r: Option<Raised>)
    ensures r.None? <==> forall i :: 0 <= i < |ids| ==> ids[i] in g
    ensures r.Some? ==> r.value == ToolDoesNotExist
  {
    if forall i :: 0 <= i < |ids| ==> ids[i] in g then None else Some(ToolDoesNotExist)
  }

  // ---------------------------------------------------------------------------------------
  // add_tool_input

  /** One iteration of `add_tool_input`'s loop, corrected: the tool tries to add the input,
      and the input tool records the tool as an output only when the input is now present. */
  function AddInputStep(g: Graph, tid: int, x: int): (r: Graph)
    requires tid in g && x in g
    ensures r.Keys == g.Keys && r[tid].toolClass == g[tid].toolClass
  {
    var g1 := g[tid := WithInput(g[tid], x)];
    if x in g1[tid].inputs then g1[x := WithOutput(g1[x], tid)] else g1
  }

  /** The loop of `add_tool_input` over the cleaned ids, in iteration order. */
  function AddInputs(g: Graph, tid: int, order: seq<int>): (r: Graph)
    requires tid in g && forall i :: 0 <= i < |order| ==> order[i] in g
    ensures r.Keys == g.Keys && r[tid].toolClass == g[tid].toolClass
    decreases |order|
  {
    if order == [] then g
    else AddInputStep(AddInputs(g, tid, order[..|order| - 1]), tid, order[|order| - 1])
  }

  /** `add_tool_input(tool_id, input_ids)`, with `order` the iteration order of the cleaned ids:
      ToolDoesNotExist for an absent tool or any absent input id, before any change. */
  function AddToolInput(g: Graph, tid: int, order: seq<int>): (r: (Graph, Option<Raised>))
    ensures r.1.None? <==> tid in g && forall i :: 0 <= i < |order| ==> order[i] in g
    ensures r.1.Some? ==> r == (g, Some(ToolDoesNotExist))
    ensures r.1.None? ==> r.0.Keys == g.Keys && r.0[tid].toolClass == g[tid].toolClass
  {
    if tid !in g then (g, Some(ToolDoesNotExist))
    else if CleanToolIds(g, order).Some? then (g, CleanToolIds(g, order))
    else (AddInputs(g, tid, order), None)
  }

  /** The target's new state after one step. */
  lemma AddInputStepTarget(g: Graph, tid: int, x: int)
    requires tid in g && x in g
    ensures var s1 := WithInput(g[tid], x);
      AddInputStep(g, tid, x)[tid] == if x == tid && x in s1.inputs then WithOutput(s1, tid) else s1
  {
  }

  lemma AddInputStepValid(g: Graph, tid: int, x: int)
    requires ValidGraph(g) && tid in g && x in g
    ensures ValidGraph(AddInputStep(g, tid, x))
  {
    AddInputStepIdentified(g, tid, x);
    AddInputStepClosed(g, tid, x);
    AddInputStepMirrored(g, tid, x);
  }

  lemma AddInputStepIdentified(g: Graph, tid: int, x: int)
    requires WellIdentified(g) && tid in g && x in g
    ensures WellIdentified(AddInputStep(g, tid, x))
  {
    var r := AddInputStep(g, tid, x);
    forall k | k in r
      ensures r[k].id == g[k].id && r[k].toolClass == g[k].toolClass && WithinCapacity(r[k])
    {
      if k != tid && k != x {
        assert r[k] == g[k];
      }
    }
  }

  lemma AddInputStepClosed(g: Graph, tid: int, x: int)
    requires Closed(g) && tid in g && x in g
    ensures Closed(AddInputStep(g, tid, x))
  {
  }

  lemma AddInputStepMirrored(g: Graph, tid: int, x: int)
    requires InputsMirrored(g) && OutputsMirrored(g) && tid in g && x in g
    ensures InputsMirrored(AddInputStep(g, tid, x)) && OutputsMirrored(AddInputStep(g, tid, x))
  {
  }

  /** `add_tool_input` keeps the workflow invariant, and a failing call changes nothing (so a
      batch with one absent id adds no input at all). */
  lemma {:induction false} AddToolInputValid(g: Graph, tid: int, order: seq<int>)
    requires ValidGraph(g)
    ensures ValidGraph(AddToolInput(g, tid, order).0)
    ensures AddToolInput(g, tid, order).1.Some? ==> AddToolInput(g, tid, order).0 == g
    ensures AddToolInput(g, tid, order).1.None? <==>
              tid in g && forall i :: 0 <= i < |order| ==> order[i] in g
  {
    if tid in g && CleanToolIds(g, order).None? {
      AddInputsValid(g, tid, order);
    }
  }

  lemma {:induction false} AddInputsValid(g: Graph, tid: int, order: seq<int>)
    requires ValidGraph(g) && tid in g && forall i :: 0 <= i < |order| ==> order[i] in g
    ensures ValidGraph(AddInputs(g, tid, order))
    decreases |order|
  {
    if order != [] {
      var init := order[..|order| - 1];
      AddInputsValid(g, tid, init);
      AddInputStepValid(AddInputs(g, tid, init), tid, order[|order| - 1]);
    }
  }

  /** What `add_tool_input` does to the tools: the target gains only listed ids, stays within
      capacity and keeps everything but its inputs and errors; a listed id that was added
      records the target as an output; every tool that is neither the target nor listed is
      untouched. */
  lemma {:induction false} AddInputsEffect(g: Graph, tid: int, order: seq<int>)
    requires tid in g && forall i :: 0 <= i < |order| ==> order[i] in g
    ensures var r := AddInputs(g, tid, order);
      && g[tid].inputs <= r[tid].inputs <= g[tid].inputs + Elements(order)
      && (WithinCapacity(g[tid]) ==> WithinCapacity(r[tid]))
      && (tid !in order ==> r[tid].(inputs := g[tid].inputs, errors := g[tid].errors) == g[tid])
    ensures AddInputsMirror(g, tid, order)
    ensures AddInputsFrame(g, tid, order)
    decreases |order|
  {
    if order != [] {
      var init := order[..|order| - 1];
      AddInputsEffect(g, tid, init);
      var last := order[|order| - 1];
      ElementsSnoc(order);
      AddInputsMirrorStep(g, tid, order);
      AddInputsFrameStep(g, tid, order);
    }
  }

  /** Every listed id that the target now has as an input lists the target as an output. */
  ghost predicate AddInputsMirror(g: Graph, tid: int, order: seq<int>)
    requires tid in g && forall i :: 0 <= i < |order| ==> order[i] in g
  {
    var r := AddInputs(g, tid, order);
    forall x :: x in order && x in r[tid].inputs ==> tid in r[x].outputs
  }

  /** Every tool that is neither the target nor listed is unchanged. */
  ghost predicate AddInputsFrame(g: Graph, tid: int, order: seq<int>)
    requires tid in g && forall i :: 0 <= i < |order| ==> order[i] in g
  {
    var r := AddInputs(g, tid, order);
    forall k :: k in g && k != tid && k !in order ==> r[k] == g[k]
  }

  lemma AddInputsMirrorStep(g: Graph, tid: int, order: seq<int>)
    requires tid in g && forall i :: 0 <= i < |order| ==> order[i] in g
    requires order != [] && AddInputsMirror(g, tid, order[..|order| - 1])
    ensures AddInputsMirror(g, tid, order)
  {
    var init := order[..|order| - 1];
    var last := order[|order| - 1];
    var g1 := AddInputs(g, tid, init);
    var r := AddInputs(g, tid, order);
    assert r == AddInputStep(g1, tid, last);
    forall x | x in order && x in r[tid].inputs
      ensures tid in r[x].outputs
    {
      if x != last {
        assert x in init;
        assert x in g1[tid].inputs;
      }
    }
  }

  lemma AddInputsFrameStep(g: Graph, tid: int, order: seq<int>)
    requires tid in g && forall i :: 0 <= i < |order| ==> order[i] in g
    requires order != [] && AddInputsFrame(g, tid, order[..|order| - 1])
    ensures AddInputsFrame(g, tid, order)
  {
    var init := order[..|order| - 1];
    forall k | k in g && k != tid && k !in order
      ensures AddInputs(g, tid, order)[k] == g[k]
    {
      assert k !in init;
    }
  }

  /** Below capacity, listed ids all become inputs: the test where a large tool gains two and
      then a third input. */
  lemma {:induction false} AddInputsBelowCapacity(g: Graph, tid: int, order: seq<int>)
    requires tid in g && forall i :: 0 <= i < |order| ==> order[i] in g
    requires |g[tid].inputs| + |order| <= MaxNumberOfInputs(g[tid].toolClass)
    ensures AddInputs(g, tid, order)[tid].inputs == g[tid].inputs + Elements(order)
    ensures InputMessages(AddInputs(g, tid, order)[tid].errors) == InputMessages(g[tid].errors)
    decreases |order|
  {
    if order != [] {
      var init := order[..|order| - 1];
      var last := order[|order| - 1];
      var g1 := AddInputs(g, tid, init);
      assert g1[tid].inputs == g[tid].inputs + Elements(init) &&
             InputMessages(g1[tid].errors) == InputMessages(g[tid].errors) by {
        AddInputsBelowCapacity(g, tid, init);
      }
      assert |g1[tid].inputs| < MaxNumberOfInputs(g1[tid].toolClass) by {
        RoomLeft(g[tid].inputs, init, MaxNumberOfInputs(g[tid].toolClass));
      }
      assert g[tid].inputs + Elements(order) == (g[tid].inputs + Elements(init)) + {last} by {
        ElementsSnoc(order);
      }
      var s1 := WithInput(g1[tid], last);
      assert s1.inputs == g1[tid].inputs + {last} && s1.errors == g1[tid].errors;
      assert AddInputs(g, tid, order)[tid].inputs == s1.inputs &&
             AddInputs(g, tid, order)[tid].errors == s1.errors by {
        assert AddInputs(g, tid, order) == AddInputStep(g1, tid, last);
        AddInputStepTarget(g1, tid, last);
      }
    }
  }

  /** Listing new, distinct ids: the target takes them until it is full, and each id after that
      adds one message to `errors["input"]` (the test where a generic tool is given three
      inputs keeps two and records one message). */
  lemma {:induction false} AddInputsFillsUp(g: Graph, tid: int, order: seq<int>)
    requires tid in g && forall i :: 0 <= i < |order| ==> order[i] in g
    requires Distinct(order) && (forall i :: 0 <= i < |order| ==> order[i] !in g[tid].inputs)
    requires WithinCapacity(g[tid])
    ensures var s, max := AddInputs(g, tid, order)[tid], MaxNumberOfInputs(g[tid].toolClass);
      && |s.inputs| == (if |g[tid].inputs| + |order| <= max then |g[tid].inputs| + |order| else max)
      && |InputMessages(s.errors)| == |InputMessages(g[tid].errors)| + (|g[tid].inputs| + |order| - |s.inputs|)
    decreases |order|
  {
    if order != [] {
      var init := order[..|order| - 1];
      var last := order[|order| - 1];
      var max := MaxNumberOfInputs(g[tid].toolClass);
      var g1 := AddInputs(g, tid, init);
      var n0, m0 := |g[tid].inputs|, |InputMessages(g[tid].errors)|;
      assert |g1[tid].inputs| == (if n0 + |init| <= max then n0 + |init| else max) &&
             |InputMessages(g1[tid].errors)| == m0 + (n0 + |init| - |g1[tid].inputs|) by {
        assert Distinct(init) && forall i :: 0 <= i < |init| ==> init[i] !in g[tid].inputs;
        AddInputsFillsUp(g, tid, init);
      }
      assert last !in g1[tid].inputs by {
        AddInputsEffect(g, tid, init);
        forall i | 0 <= i < |init|
          ensures init[i] != last
        {
        }
      }
      assert AddInputs(g, tid, order) == AddInputStep(g1, tid, last);
      FillStep(g1, tid, last);
    }
  }

  /** One step of `AddInputsFillsUp`: a new id is taken below capacity and reported at it. */
  lemma FillStep(g: Graph, tid: int, x: int)
    requires tid in g && x in g && x !in g[tid].inputs
    ensures var s, max := AddInputStep(g, tid, x)[tid], MaxNumberOfInputs(g[tid].toolClass);
      && (|g[tid].inputs| < max ==>
            |s.inputs| == |g[tid].inputs| + 1 && |InputMessages(s.errors)| == |InputMessages(g[tid].errors)|)
      && (|g[tid].inputs| >= max ==>
            |s.inputs| == |g[tid].inputs| && |InputMessages(s.errors)| == |InputMessages(g[tid].errors)| + 1)
  {
    var s1 := WithInput(g[tid], x);
    assert AddInputStep(g, tid, x)[tid].inputs == s1.inputs &&
           AddInputStep(g, tid, x)[tid].errors == s1.errors by {
      AddInputStepTarget(g, tid, x);
    }
  }

  lemma RoomLeft<T>(a: set<T>, s: seq<T>, max: int)
    requires |a| + |s| < max
    ensures |a + Elements(s)| < max
  {
    ElementsLength(s);
    assert |a + Elements(s)| == |a| + |Elements(s) - a|;
  }

  lemma {:induction false} ElementsLength<T>(s: seq<T>)
    ensures |Elements(s)| <= |s|
  {
    if s != [] {
      ElementsLength(s[..|s| - 1]);
      ElementsSnoc(s);
    }
  }

  // ---------------------------------------------------------------------------------------
  // remove_tool_input

  /** One iteration of `remove_tool_input`'s loop: both directions of the edge go; an absent
      edge is a silent no-op. */
  function RemoveInputStep(g: Graph, tid: int, x: int): (r: Graph)
    requires tid in g && x in g
    ensures r.Keys == g.Keys
  {
    var g1 := g[tid := WithoutInput(g[tid], x)];
    g1[x := WithoutOutput(g1[x], tid)]
  }

  function RemoveInputs(g: Graph, tid: int, order: seq<int>): (r: Graph)
    requires tid in g && forall i :: 0 <= i < |order| ==> order[i] in g
    ensures r.Keys == g.Keys
    decreases |order|
  {
    if order == [] then g
    else RemoveInputStep(RemoveInputs(g, tid, order[..|order| - 1]), tid, order[|order| - 1])
  }

  /** `remove_tool_input(tool_id, input_ids)`. */
  function RemoveToolInput(g: Graph, tid: int, order: seq<int>): (r: (Graph, Option<Raised>))
    ensures r.1.None? <==> tid in g && forall i :: 0 <= i < |order| ==> order[i] in g
    ensures r.1.Some? ==> r == (g, Some(ToolDoesNotExist))
    ensures r.0.Keys == g.Keys
  {
    if tid !in g then (g, Some(ToolDoesNotExist))
    else if CleanToolIds(g, order).Some? then (g, CleanToolIds(g, order))
    else (RemoveInputs(g, tid, order), None)
  }

  lemma RemoveInputStepValid(g: Graph, tid: int, x: int)
    requires ValidGraph(g) && tid in g && x in g
    ensures ValidGraph(RemoveInputStep(g, tid, x))
  {
    RemoveInputStepIdentified(g, tid, x);
    RemoveInputStepClosed(g, tid, x);
    RemoveInputStepMirrored(g, tid, x);
  }

  lemma RemoveInputStepIdentified(g: Graph, tid: int, x: int)
    requires WellIdentified(g) && tid in g && x in g
    ensures WellIdentified(RemoveInputStep(g, tid, x))
  {
    var r := RemoveInputStep(g, tid, x);
    forall k | k in r
      ensures r[k].id == g[k].id && r[k].toolClass == g[k].toolClass && WithinCapacity(r[k])
    {
      if k != tid && k != x {
        assert r[k] == g[k];
      }
    }
  }

  lemma RemoveInputStepClosed(g: Graph, tid: int, x: int)
    requires Closed(g) && tid in g && x in g
    ensures Closed(RemoveInputStep(g, tid, x))
  {
  }

  lemma RemoveInputStepMirrored(g: Graph, tid: int, x: int)
    requires InputsMirrored(g) && OutputsMirrored(g) && tid in g && x in g
    ensures InputsMirrored(RemoveInputStep(g, tid, x)) && OutputsMirrored(RemoveInputStep(g, tid, x))
  {
  }

  lemma {:induction false} RemoveInputsValid(g: Graph, tid: int, order: seq<int>)
    requires ValidGraph(g) && tid in g && forall i :: 0 <= i < |order| ==> order[i] in g
    ensures ValidGraph(RemoveInputs(g, tid, order))
    decreases |order|
  {
    if order != [] {
      var init := order[..|order| - 1];
      RemoveInputsValid(g, tid, init);
      RemoveInputStepValid(RemoveInputs(g, tid, init), tid, order[|order| - 1]);
    }
  }

  /** What `remove_tool_input` does: afterwards no listed id is an input of the tool, the tool
      loses nothing else, the tool is an output of no listed id, every tool that is neither the
      tool nor listed is untouched. */
  lemma {:induction false} RemoveInputsEffect(g: Graph, tid: int, order: seq<int>)
    requires tid in g && forall i :: 0 <= i < |order| ==> order[i] in g
    ensures RemoveInputs(g, tid, order)[tid].inputs == g[tid].inputs - Elements(order)
    ensures RemoveInputsUnmirrored(g, tid, order)
    ensures RemoveInputsFrame(g, tid, order)
    decreases |order|
  {
    if order != [] {
      var init := order[..|order| - 1];
      RemoveInputsEffect(g, tid, init);
      ElementsSnoc(order);
      RemoveInputsUnmirroredStep(g, tid, order);
      RemoveInputsFrameStep(g, tid, order);
    }
  }

  /** No listed id lists the tool as an output. */
  ghost predicate RemoveInputsUnmirrored(g: Graph, tid: int, order: seq<int>)
    requires tid in g && forall i :: 0 <= i < |order| ==> order[i] in g
  {
    var r := RemoveInputs(g, tid, order);
    forall x :: x in order ==> tid !in r[x].outputs
  }

  /** Tools that are neither the target nor listed are unchanged. */
  ghost predicate RemoveInputsFrame(g: Graph, tid: int, order: seq<int>)
    requires tid in g && forall i :: 0 <= i < |order| ==> order[i] in g
  {
    var r := RemoveInputs(g, tid, order);
    forall k :: k in g && k != tid && k !in order ==> r[k] == g[k]
  }

  lemma RemoveInputsUnmirroredStep(g: Graph, tid: int, order: seq<int>)
    requires tid in g && forall i :: 0 <= i < |order| ==> order[i] in g
    requires order != [] && RemoveInputsUnmirrored(g, tid, order[..|order| - 1])
    ensures RemoveInputsUnmirrored(g, tid, order)
  {
    var init := order[..|order| - 1];
    var last := order[|order| - 1];
    var r := RemoveInputs(g, tid, order);
    forall x | x in order
      ensures tid !in r[x].outputs
    {
      if x != last {
        assert x in init;
      }
    }
  }

  lemma RemoveInputsFrameStep(g: Graph, tid: int, order: seq<int>)
    requires tid in g && forall i :: 0 <= i < |order| ==> order[i] in g
    requires order != [] && RemoveInputsFrame(g, tid, order[..|order| - 1])
    ensures RemoveInputsFrame(g, tid, order)
  {
    var init := order[..|order| - 1];
    forall k | k in g && k != tid && k !in order
      ensures RemoveInputs(g, tid, order)[k] == g[k]
    {
      assert k !in init;
    }
  }

  // ---------------------------------------------------------------------------------------
  // remove_tool

  /** The body of `remove_tool` for one tool `t`, iterating over snapshots of its outputs and
      inputs: every output stops listing `t` as an input, every input stops listing `t` as an
      output, and `t` is deleted. */
  function Detach(g: Graph, t: int): (r: Graph)
    requires t in g
    ensures r.Keys == g.Keys - {t}
  {
    map k | k in g && k != t ::
      var s1 := if k in g[t].outputs then WithoutInput(g[k], t) else g[k];
      if k in g[t].inputs then WithoutOutput(s1, t) else s1
  }

  /** Removing a non-root tool keeps the invariant, leaves no reference to it, and every other
      tool keeps all its fields except possibly losing `t` from its inputs and outputs. */
  lemma DetachValid(g: Graph, t: int)
    requires ValidGraph(g) && t in g && t != ROOT_ID
    ensures ValidGraph(Detach(g, t)) && Unreferenced(Detach(g, t), t)
    ensures forall k :: k in Detach(g, t) ==>
              Detach(g, t)[k].inputs == g[k].inputs - {t} &&
              Detach(g, t)[k].outputs == g[k].outputs - {t} &&
              Detach(g, t)[k].(inputs := g[k].inputs, outputs := g[k].outputs) == g[k]
  {
    DetachEdges(g, t);
    DetachIdentified(g, t);
    DetachMirrored(g, t);
  }

  /** Snapshot iteration over a mirrored graph removes exactly `t` from every tool's edges. */
  lemma DetachEdges(g: Graph, t: int)
    requires InputsMirrored(g) && OutputsMirrored(g) && t in g
    ensures forall k :: k in Detach(g, t) ==>
              Detach(g, t)[k].inputs == g[k].inputs - {t} &&
              Detach(g, t)[k].outputs == g[k].outputs - {t} &&
              Detach(g, t)[k].(inputs := g[k].inputs, outputs := g[k].outputs) == g[k]
  {
    var r := Detach(g, t);
    forall k | k in r
      ensures r[k].inputs == g[k].inputs - {t} && r[k].outputs == g[k].outputs - {t}
      ensures r[k].(inputs := g[k].inputs, outputs := g[k].outputs) == g[k]
    {
      if t in g[k].inputs { assert k in g[t].outputs; }
      if t in g[k].outputs { assert k in g[t].inputs; }
    }
  }

  lemma DetachIdentified(g: Graph, t: int)
    requires WellIdentified(g) && Closed(g) && t in g && t != ROOT_ID
    requires forall k :: k in Detach(g, t) ==>
              Detach(g, t)[k].inputs == g[k].inputs - {t} &&
              Detach(g, t)[k].outputs == g[k].outputs - {t} &&
              Detach(g, t)[k].(inputs := g[k].inputs, outputs := g[k].outputs) == g[k]
    ensures WellIdentified(Detach(g, t)) && Closed(Detach(g, t)) && Unreferenced(Detach(g, t), t)
  {
    var r := Detach(g, t);
    forall k | k in r
      ensures r[k].id == k && r[k].toolClass == g[k].toolClass && WithinCapacity(r[k])
    {
      assert r[k].id == g[k].id;
      assert r[k].inputs <= g[k].inputs;
    }
  }

  lemma DetachMirrored(g: Graph, t: int)
    requires InputsMirrored(g) && OutputsMirrored(g) && t in g
    requires forall k :: k in Detach(g, t) ==>
              Detach(g, t)[k].inputs == g[k].inputs - {t} &&
              Detach(g, t)[k].outputs == g[k].outputs - {t}
    ensures InputsMirrored(Detach(g, t)) && OutputsMirrored(Detach(g, t))
  {
    var r := Detach(g, t);
    forall a, b | a in r && b in r && b in r[a].inputs
      ensures a in r[b].outputs
    {
      assert b in g[a].inputs;
    }
    forall a, b | a in r && b in r && a in r[b].outputs
      ensures b in r[a].inputs
    {
      assert a in g[b].outputs;
    }
  }

  /** The loop of `remove_tool` over the cleaned ids: each id in turn is deleted, except that
      the root raises RootCannotBeDeleted and stops the loop, keeping the deletions already
      made. An id deleted earlier in the same loop raises ToolDoesNotExist, which does not happen
      for distinct ids. */
  function RemoveEach(g: Graph, order: seq<int>): (r: (Graph, Option<Raised>))
    ensures r.0.Keys <= g.Keys
    ensures r.1.Some? ==> r.1 == Some(ToolDoesNotExist) || r.1 == Some(RootCannotBeDeleted)
    decreases |order|
  {
    if order == [] then (g, None)
    else if order[0] !in g then (g, Some(ToolDoesNotExist))
    else if IsRoot(g[order[0]].toolClass) then (g, Some(RootCannotBeDeleted))
    else RemoveEach(Detach(g, order[0]), order[1..])
  }



  /** `remove_tool(tool_ids)`: every id is checked before anything changes. */
  function RemoveTool(g: Graph, order: seq<int>): (r: (Graph, Option<Raised>))
    ensures (exists i :: 0 <= i < |order| && order[i] !in g) ==> r == (g, Some(ToolDoesNotExist))
    ensures r.0.Keys <= g.Keys
    ensures r.1.Some? ==> r.1 == Some(ToolDoesNotExist) || r.1 == Some(RootCannotBeDeleted)
  {
    if CleanToolIds(g, order).Some? then (g, CleanToolIds(g, order))
    else RemoveEach(g, order)
  }

  /** What `remove_tool` guarantees for distinct ids: the invariant is kept whatever is raised;
      an absent id raises ToolDoesNotExist and changes nothing; listing the root raises
      RootCannotBeDeleted and keeps the root; otherwise exactly the listed tools are gone and no
      remaining tool refers to any of them. */
  lemma RemoveToolEffect(g: Graph, order: seq<int>)
    requires ValidGraph(g) && Distinct(order)
    ensures var (r, e) := RemoveTool(g, order);
      && ValidGraph(r) && ROOT_ID in r
      && (e == Some(ToolDoesNotExist) <==> exists i :: 0 <= i < |order| && order[i] !in g)
      && (e == Some(ToolDoesNotExist) ==> r == g)
      && (e.None? <==> (forall i :: 0 <= i < |order| ==> order[i] in g) && ROOT_ID !in order)
      && (e.Some? ==> e.value == ToolDoesNotExist || e.value == RootCannotBeDeleted)
      && (e.None? ==> r.Keys == g.Keys - Elements(order) && forall t :: t in order ==> Unreferenced(r, t))
  {
    if CleanToolIds(g, order).None? {
      RemoveEachValid(g, order);
      ValidRootOnlyAtZero(g);
      RemoveEachEffect(g, order);
      RemoveEachUnreferenced(g, order);
    }
  }

  lemma {:induction false} RemoveEachValid(g: Graph, order: seq<int>)
    requires ValidGraph(g)
    ensures ValidGraph(RemoveEach(g, order).0)
    decreases |order|
  {
    if order != [] && order[0] in g && !IsRoot(g[order[0]].toolClass) {
      DetachValid(g, order[0]);
      RemoveEachValid(Detach(g, order[0]), order[1..]);
    }
  }

  /** The root is the only tool of class RootTool, and it sits at id 0. */
  predicate RootOnlyAtZero(g: Graph) {
    ROOT_ID in g && forall k :: k in g ==> (IsRoot(g[k].toolClass) <==> k == ROOT_ID)
  }

  lemma ValidRootOnlyAtZero(g: Graph)
    requires WellIdentified(g)
    ensures RootOnlyAtZero(g)
  {
  }

  lemma DetachRootOnlyAtZero(g: Graph, t: int)
    requires RootOnlyAtZero(g) && t in g && t != ROOT_ID
    ensures RootOnlyAtZero(Detach(g, t))
  {
    var r := Detach(g, t);
    forall k | k in r
      ensures r[k].toolClass == g[k].toolClass
    {
    }
  }

  /** What `remove_tool` does once the ids are checked: the root raises RootCannotBeDeleted and
      stays; otherwise all listed tools are gone and no remaining tool refers to any of them.
      The root is never removed. */
  lemma {:induction false} RemoveEachEffect(g: Graph, order: seq<int>)
    requires RootOnlyAtZero(g) && Distinct(order) && forall i :: 0 <= i < |order| ==> order[i] in g
    ensures var (r, e) := RemoveEach(g, order);
      && ROOT_ID in r
      && (e.None? <==> ROOT_ID !in order)
      && (e.Some? ==> e.value == RootCannotBeDeleted)
      && (e.None? ==> r.Keys == g.Keys - Elements(order))
    decreases |order|
  {
    if order != [] {
      var t := order[0];
      RemoveEachRootStep(g, order);
      if t != ROOT_ID {
        TailInDetach(g, order);
        RemoveEachEffect(Detach(g, t), order[1..]);
        ElementsCons(order);
      }
    }
  }

  /** One iteration of the loop of `remove_tool`, for the ids alone. */
  lemma RemoveEachRootStep(g: Graph, order: seq<int>)
    requires RootOnlyAtZero(g) && order != [] && order[0] in g
    ensures order[0] == ROOT_ID ==> RemoveEach(g, order) == (g, Some(RootCannotBeDeleted))
    ensures order[0] != ROOT_ID ==>
      && RemoveEach(g, order) == RemoveEach(Detach(g, order[0]), order[1..])
      && RootOnlyAtZero(Detach(g, order[0]))
  {
    if order[0] != ROOT_ID {
      DetachRootOnlyAtZero(g, order[0]);
    }
  }

  /** One iteration of the loop of `remove_tool` on a valid workflow: the root stops it; any
      other tool is detached, which keeps the invariant. */
  lemma RemoveEachStep(g: Graph, order: seq<int>)
    requires ValidGraph(g) && order != [] && order[0] in g
    ensures order[0] == ROOT_ID ==> RemoveEach(g, order) == (g, Some(RootCannotBeDeleted))
    ensures order[0] != ROOT_ID ==>
      && RemoveEach(g, order) == RemoveEach(Detach(g, order[0]), order[1..])
      && ValidGraph(Detach(g, order[0]))
  {
    if order[0] != ROOT_ID {
      DetachValid(g, order[0]);
    }
  }

  /** After a successful `remove_tool`, no remaining tool refers to a removed one. */
  lemma {:induction false} RemoveEachUnreferenced(g: Graph, order: seq<int>)
    requires ValidGraph(g) && Distinct(order) && forall i :: 0 <= i < |order| ==> order[i] in g
    ensures var (r, e) := RemoveEach(g, order);
      e.None? ==> forall t :: t in order ==> Unreferenced(r, t)
    decreases |order|
  {
    if order != [] && order[0] != ROOT_ID {
      var t := order[0];
      var g1 := Detach(g, t);
      DetachValid(g, t);
      TailInDetach(g, order);
      RemoveEachUnreferenced(g1, order[1..]);
      RemoveEachKeepsUnreferenced(g1, order[1..], t);
      var r := RemoveEach(g, order).0;
      forall u | u in order
        ensures RemoveEach(g, order).1.None? ==> Unreferenced(r, u)
      {
        if u != t {
          assert u in order[1..];
        }
      }
    }
  }

  /** The ids after the first are distinct ids of the graph without the first. */
  lemma TailInDetach(g: Graph, order: seq<int>)
    requires Distinct(order) && forall i :: 0 <= i < |order| ==> order[i] in g
    requires order != []
    ensures Distinct(order[1..])
    ensures forall i :: 0 <= i < |order[1..]| ==> order[1..][i] in g && order[1..][i] != order[0]
  {
    forall i | 0 <= i < |order[1..]|
      ensures order[1..][i] in g && order[1..][i] != order[0]
    {
      assert order[1..][i] == order[i + 1];
    }
  }

  /** Deleting more tools never brings back a reference to a tool already gone. */
  lemma {:induction false} RemoveEachKeepsUnreferenced(g: Graph, order: seq<int>, t: int)
    requires ValidGraph(g) && t !in g && Unreferenced(g, t)
    ensures Unreferenced(RemoveEach(g, order).0, t)
    decreases |order|
  {
    if order != [] && order[0] in g && !IsRoot(g[order[0]].toolClass) {
      DetachValid(g, order[0]);
      RemoveEachKeepsUnreferenced(Detach(g, order[0]), order[1..], t);
    }
  }

  /** The root check is made per id: when the root comes later in the iteration order than some
      other listed tool, that tool is already deleted when RootCannotBeDeleted is raised. */
  lemma {:induction false} RemoveEachPartial(g: Graph, order: seq<int>, k: nat)
    requires RootOnlyAtZero(g) && Distinct(order) && forall i :: 0 <= i < |order| ==> order[i] in g
    requires k < |order| && order[k] == ROOT_ID
    ensures RemoveEach(g, order).1 == Some(RootCannotBeDeleted)
    ensures forall u :: u in RemoveEach(g, order).0 <==> u in g && u !in order[..k]
    decreases |order|
  {
    RemoveEachRootStep(g, order);
    if k > 0 {
      var t := order[0];
      TailInDetach(g, order);
      var tail := order[1..];
      assert tail[k - 1] == ROOT_ID;
      RemoveEachPartial(Detach(g, t), tail, k - 1);
      forall u
        ensures u in order[..k] <==> u == t || u in tail[..k - 1]
      {
        if u in order[..k] {
          var i :| 0 <= i < k && order[..k][i] == u;
          if i > 0 {
            assert tail[..k - 1][i - 1] == u;
          }
        }
        if u in tail[..k - 1] {
          var i :| 0 <= i < k - 1 && tail[..k - 1][i] == u;
          assert order[..k][i + 1] == u;
        }
        if u == t {
          assert order[..k][0] == u;
        }
      }
    }
  }

  // ---------------------------------------------------------------------------------------
  // set_tool_coordinates and set_tool_config

  /** `set_tool_coordinates`: without coordinates, the default (0, 0) is used. */
  function SetToolCoordinates(g: Graph, tid: int, c: Option<CoordinatesArg>): (r: (Graph, Option<Raised>))
    ensures tid !in g ==> r == (g, Some(ToolDoesNotExist))
    ensures tid in g && c.None? && OnCanvas(0) ==> r.1.None? && r.0 == g[tid := g[tid].(x := Some(0), y := Some(0))]
    ensures tid in g ==> r.0.Keys == g.Keys && (forall k :: k in g && k != tid ==> r.0[k] == g[k])
    ensures tid in g ==> r.0[tid].(x := g[tid].x, y := g[tid].y) == g[tid]
    ensures tid in g ==>
              var arg := if c.Some? then c.value else Integers(0, 0);
              && (r.1.None? <==> arg.Integers? && OnCanvas(arg.x) && OnCanvas(arg.y))
              && (r.1.None? ==> r.0 == g[tid := g[tid].(x := Some(arg.x), y := Some(arg.y))])
              && (r.1.Some? ==> r.0 == g)
              && (r.1 == Some(SetterRaised(CoordinatesTypeError)) <==> arg.NotCoercible?)
              && (r.1.Some? && !arg.NotCoercible? ==> r.1 == Some(SetterRaised(CoordinatesValueError(MAX_CANVAS_SIZE))))
  {
    if tid !in g then (g, Some(ToolDoesNotExist))
    else
      var placed := Placed(g[tid], if c.Some? then c.value else Integers(0, 0));
      assert placed.0 == g[tid] ==> g[tid := placed.0] == g;
      (g[tid := placed.0], if placed.1 == Done then None else Some(SetterRaised(placed.1)))
  }

  /** `set_tool_config`. */
  function SetToolConfig(g: Graph, tid: int, data: ConfigData, validate: ConfigData -> Validation): (r: (Graph, Option<Raised>))
    ensures tid !in g ==> r == (g, Some(ToolDoesNotExist))
    ensures tid in g ==> r.0.Keys == g.Keys && (forall k :: k in g && k != tid ==> r.0[k] == g[k])
    ensures tid in g ==> r.0[tid].(config := g[tid].config, errors := g[tid].errors) == g[tid]
    ensures tid in g && !HasConfigClass(g[tid].toolClass) ==> r == (g, Some(SetterRaised(ConfigClassIsNotDefined)))
    ensures tid in g && HasConfigClass(g[tid].toolClass) && validate(data).Accepted? ==>
              r == (g[tid := g[tid].(config := Some(validate(data).config))], None)
    ensures tid in g && HasConfigClass(g[tid].toolClass) && validate(data).Rejected? ==>
              r == (g[tid := g[tid].(errors := g[tid].errors.(config := Some(validate(data).errorsJson)))], None)
  {
    if tid !in g then (g, Some(ToolDoesNotExist))
    else
      var configured := Configured(g[tid], data, validate);
      assert configured.0 == g[tid] ==> g[tid := configured.0] == g;
      (g[tid := configured.0], if configured.1 == Done then None else Some(SetterRaised(configured.1)))
  }

  /** Setters change no edge, so they keep the invariant. */
  lemma SettersValid(g: Graph, tid: int, c: Option<CoordinatesArg>, data: ConfigData, validate: ConfigData -> Validation)
    requires ValidGraph(g)
    ensures ValidGraph(SetToolCoordinates(g, tid, c).0)
    ensures ValidGraph(SetToolConfig(g, tid, data, validate).0)
  {
    if tid in g {
      EdgesKeptValid(g, tid, SetToolCoordinates(g, tid, c).0[tid]);
      EdgesKeptValid(g, tid, SetToolConfig(g, tid, data, validate).0[tid]);
    }
  }

  /** Replacing a tool by a state with the same id, class and edges keeps the invariant. */
  lemma EdgesKeptValid(g: Graph, tid: int, s: ToolState)
    requires ValidGraph(g) && tid in g
    requires s.id == g[tid].id && s.toolClass == g[tid].toolClass
    requires s.inputs == g[tid].inputs && s.outputs == g[tid].outputs
    ensures ValidGraph(g[tid := s])
  {
    var r := g[tid := s];
    assert forall k :: k in r ==> r[k].inputs == g[k].inputs && r[k].outputs == g[k].outputs;
    assert WellIdentified(r) by {
      forall k | k in r
        ensures r[k].id == k && WithinCapacity(r[k]) && r[k].toolClass == g[k].toolClass
      {
      }
    }
  }

  // ---------------------------------------------------------------------------------------
  // insert_tool

  /** The loop over `output_ids` in `insert_tool`: each listed tool gets the new tool as input. */
  function AddAsInputOf(g: Graph, newId: int, order: seq<int>): (r: Graph)
    requires newId in g && forall i :: 0 <= i < |order| ==> order[i] in g
    ensures r.Keys == g.Keys
    decreases |order|
  {
    if order == [] then g
    else
      var g1 := AddAsInputOf(g, newId, order[..|order| - 1]);
      AddInputs(g1, order[|order| - 1], [newId])
  }

  lemma {:induction false} AddAsInputOfValid(g: Graph, newId: int, order: seq<int>)
    requires ValidGraph(g) && newId in g && forall i :: 0 <= i < |order| ==> order[i] in g
    ensures ValidGraph(AddAsInputOf(g, newId, order))
    decreases |order|
  {
    if order != [] {
      AddAsInputOfValid(g, newId, order[..|order| - 1]);
      AddInputsValid(AddAsInputOf(g, newId, order[..|order| - 1]), order[|order| - 1], [newId]);
    }
  }

  /** The state after `insert_tool` has registered the new tool. */
  ghost function Registered(g: Graph, used: set<int>, c: ToolClass): (r: (Graph, set<int>))
    requires used != {}
    ensures var id := NextId(used);
      && r.1 == used + {id} && r.0.Keys == g.Keys + {id} && r.0[id] == NewTool(id, c)
      && forall k :: k in g && k != id ==> r.0[k] == g[k]
  {
    var id := NextId(used);
    (g[id := NewTool(id, c)], used + {id})
  }

  /** `insert_tool(choice, input_ids, output_ids, coordinates)` with the iteration orders of the
      cleaned input and output ids: the new state, the new pool of used ids and the exception
      raised, if any. The tool is registered before the edges are checked, so an absent input or
      output id leaves the new tool in the workflow. */
  ghost function InsertTool(g: Graph, used: set<int>, choice: string, inputs: Option<seq<int>>,
                            outputs: Option<seq<int>>, c: Option<CoordinatesArg>): (r: (Graph, set<int>, Option<Raised>))
    requires used != {}
    ensures r.2 == Some(ToolNotAvailable) <==> ToolChoice(choice).None?
    ensures ToolChoice(choice).None? ==> r.0 == g && r.1 == used
    ensures ToolChoice(choice).Some? ==> r.1 == used + {NextId(used)} && r.0.Keys == g.Keys + {NextId(used)}
  {
    if ToolChoice(choice).None? then (g, used, Some(ToolNotAvailable))
    else
      var (g1, used1) := Registered(g, used, ToolChoice(choice).value);
      var (r, e) := InsertEdges(g1, NextId(used), inputs, outputs, c);
      (r, used1, e)
  }

  /** What `insert_tool` guarantees: an unknown choice (the root's name included) raises
      ToolNotAvailable and changes nothing; otherwise the new tool gets id `max(used) + 1`, which
      was never used before, and is in the workflow with the chosen class afterwards whatever is
      raised; the pool only grows; the invariant is kept. */
  lemma InsertToolEffect(g: Graph, used: set<int>, choice: string, inputs: Option<seq<int>>,
                         outputs: Option<seq<int>>, c: Option<CoordinatesArg>)
    requires ValidGraph(g) && g.Keys <= used && ROOT_ID in used
    ensures var (r, used', e) := InsertTool(g, used, choice, inputs, outputs, c);
      && ValidGraph(r) && r.Keys <= used' && used <= used'
      && (ToolChoice(choice).None? <==> e == Some(ToolNotAvailable))
      && (ToolChoice(choice).None? ==> r == g && used' == used)
      && (ToolChoice(choice).Some? ==>
            used' == used + {NextId(used)} && NextId(used) !in used &&
            r.Keys == g.Keys + {NextId(used)} &&
            r[NextId(used)].toolClass == ToolChoice(choice).value)
  {
    if ToolChoice(choice).Some? {
      var id, k := NextId(used), ToolChoice(choice).value;
      NextIdIsFresh(used);
      RegisteredValid(g, used, k);
      var (g1, used1) := Registered(g, used, k);
      InsertEdgesEffect(g1, id, inputs, outputs, c);
      assert InsertTool(g, used, choice, inputs, outputs, c) ==
        (InsertEdges(g1, id, inputs, outputs, c).0, used1, InsertEdges(g1, id, inputs, outputs, c).1);
    }
  }

  /** Where `insert_tool` stops once the new tool is registered with no edges: an absent input
      id raises with the new tool left unconnected, an absent output id raises with only the
      input edges made, and otherwise the edges and coordinates are those of `InsertEdges`
      (whose outcome `InsertEdgesOutcome` states). */
  lemma InsertToolOutcome(g: Graph, used: set<int>, choice: string, inputs: Option<seq<int>>,
                          outputs: Option<seq<int>>, c: Option<CoordinatesArg>)
    requires used != {} && ToolChoice(choice).Some?
    ensures var id := NextId(used);
      var g1 := g[id := NewTool(id, ToolChoice(choice).value)];
      var ins, outs := IdsGiven(inputs), IdsGiven(outputs);
      var (r, used', e) := InsertTool(g, used, choice, inputs, outputs, c);
      && ((exists i :: 0 <= i < |ins| && ins[i] !in g1) ==> r == g1 && e == Some(ToolDoesNotExist))
      && ((forall i :: 0 <= i < |ins| ==> ins[i] in g1) && (exists i :: 0 <= i < |outs| && outs[i] !in g1) ==>
            r == AddInputs(g1, id, ins) && e == Some(ToolDoesNotExist))
      && (r, e) == InsertEdges(g1, id, inputs, outputs, c)
  {
    var id := NextId(used);
    var g1 := g[id := NewTool(id, ToolChoice(choice).value)];
    var ins, outs := IdsGiven(inputs), IdsGiven(outputs);
    if (forall i :: 0 <= i < |ins| ==> ins[i] in g1) && (exists i :: 0 <= i < |outs| && outs[i] !in g1) {
      InsertEdgesOutputsFail(g1, id, inputs, outputs, c);
    }
  }

  /** Registering a fresh tool of a choice class keeps the invariant. */
  lemma RegisteredValid(g: Graph, used: set<int>, c: ToolClass)
    requires ValidGraph(g) && g.Keys <= used && ROOT_ID in used && IsChoiceClass(c)
    ensures var (g1, used1) := Registered(g, used, c);
      && ValidGraph(g1) && g1.Keys == g.Keys + {NextId(used)} && g1.Keys <= used1
      && NextId(used) in g1 && g1[NextId(used)].toolClass == c
  {
    var id := NextId(used);
    NextIdIsFresh(used);
    var g1 := Registered(g, used, c).0;
    assert forall k :: k in g ==> id !in g[k].inputs && id !in g[k].outputs;
    assert WellIdentified(g1) by {
      forall k | k in g1
        ensures g1[k].id == k && WithinCapacity(g1[k])
      {
        if k != id {
          assert g1[k] == g[k];
        }
      }
    }
  }

  /** The part of `insert_tool` after the registration: the edges, then the coordinates. */
  ghost function InsertEdges(g1: Graph, id: int, inputs: Option<seq<int>>, outputs: Option<seq<int>>,
                             c: Option<CoordinatesArg>): (r: (Graph, Option<Raised>))
    requires id in g1
    ensures r.0.Keys == g1.Keys
    ensures r.1.None? || r.1 == Some(ToolDoesNotExist) || r.1.value.SetterRaised?
    ensures inputs.Some? && (exists i :: 0 <= i < |inputs.value| && inputs.value[i] !in g1) ==>
              r == (g1, Some(ToolDoesNotExist))
  {
    var (g2, e2) := if inputs.Some? then AddToolInput(g1, id, inputs.value) else (g1, None);
    if e2.Some? then (g2, e2)
    else if outputs.Some? && CleanToolIds(g2, outputs.value).Some? then (g2, Some(ToolDoesNotExist))
    else
      var g3 := if outputs.Some? then AddAsInputOf(g2, id, outputs.value) else g2;
      if c.Some? then SetToolCoordinates(g3, id, c) else (g3, None)
  }

  lemma InsertEdgesEffect(g1: Graph, id: int, inputs: Option<seq<int>>, outputs: Option<seq<int>>,
                          c: Option<CoordinatesArg>)
    requires ValidGraph(g1) && id in g1
    ensures var (r, e) := InsertEdges(g1, id, inputs, outputs, c);
      ValidGraph(r) && r.Keys == g1.Keys && r[id].toolClass == g1[id].toolClass && e != Some(ToolNotAvailable)
  {
    var (r, e) := InsertEdges(g1, id, inputs, outputs, c);
    var (g2, e2) := if inputs.Some? then AddToolInput(g1, id, inputs.value) else (g1, None);
    assert ValidGraph(g2) && g2.Keys == g1.Keys && g2[id].toolClass == g1[id].toolClass by {
      AddToolInputValid(g1, id, if inputs.Some? then inputs.value else []);
    }
    if e2.Some? {
      assert (r, e) == (g2, e2) && e2 == Some(ToolDoesNotExist);
    } else if outputs.Some? && CleanToolIds(g2, outputs.value).Some? {
      assert (r, e) == (g2, Some(ToolDoesNotExist));
    } else {
      var g3 := if outputs.Some? then AddAsInputOf(g2, id, outputs.value) else g2;
      assert ValidGraph(g3) && g3.Keys == g1.Keys && g3[id].toolClass == g1[id].toolClass by {
        if outputs.Some? {
          AddAsInputOfValid(g2, id, outputs.value);
          AddAsInputOfClasses(g2, id, outputs.value);
        }
      }
      assert ValidGraph(SetToolCoordinates(g3, id, c).0) by {
        SettersValid(g3, id, c, map[], _ => Rejected(""));
      }
      assert (r, e) == if c.Some? then SetToolCoordinates(g3, id, c) else (g3, None);
    }
  }

  /** The listed tools that take the new tool as an input: those with room left for it, and
      those that already had it. */
  ghost function AddedTargets(g: Graph, newId: int, order: seq<int>): set<int>
    requires forall i :: 0 <= i < |order| ==> order[i] in g
  {
    set o | o in order && newId in WithInput(g[o], newId).inputs
  }

  /** What the loop over `output_ids` does, for distinct targets other than the new tool: each
      target tries to add the new tool as an input; the new tool records as outputs exactly the
      targets that took it; no other tool changes. */
  lemma AddAsInputOfEffect(g: Graph, newId: int, order: seq<int>)
    requires newId in g && forall i :: 0 <= i < |order| ==> order[i] in g
    requires Distinct(order) && newId !in order
    ensures var r := AddAsInputOf(g, newId, order);
      && (forall o :: o in order ==> r[o] == WithInput(g[o], newId))
      && r[newId] == g[newId].(outputs := g[newId].outputs + AddedTargets(g, newId, order))
      && (forall k :: k in g && k != newId && k !in order ==> r[k] == g[k])
  {
    AddAsInputOfOthers(g, newId, order);
    AddAsInputOfNewTool(g, newId, order);
    var r := AddAsInputOf(g, newId, order);
    forall o | o in order
      ensures r[o] == WithInput(g[o], newId)
    {
      assert o in g && o != newId;
    }
  }

  /** The last iteration of the loop over `output_ids`. */
  lemma AddAsInputOfSnoc(g: Graph, newId: int, order: seq<int>)
    requires newId in g && forall i :: 0 <= i < |order| ==> order[i] in g
    requires order != []
    ensures AddAsInputOf(g, newId, order) ==
              AddInputStep(AddAsInputOf(g, newId, order[..|order| - 1]), order[|order| - 1], newId)
  {
    var g1 := AddAsInputOf(g, newId, order[..|order| - 1]);
    assert [newId][..0] == [];
    assert AddInputs(g1, order[|order| - 1], []) == g1;
  }

  /** Every tool other than the new one is offered the new tool as an input when it is a target
      and is left alone otherwise. */
  lemma {:induction false} AddAsInputOfOthers(g: Graph, newId: int, order: seq<int>)
    requires newId in g && forall i :: 0 <= i < |order| ==> order[i] in g
    requires Distinct(order) && newId !in order
    ensures var r := AddAsInputOf(g, newId, order);
      forall k :: k in g && k != newId ==> r[k] == if k in order then WithInput(g[k], newId) else g[k]
    decreases |order|
  {
    if order != [] {
      var init, last := order[..|order| - 1], order[|order| - 1];
      DistinctInit(order);
      AddAsInputOfOthers(g, newId, init);
      AddAsInputOfSnoc(g, newId, order);
      var g1 := AddAsInputOf(g, newId, init);
      TargetStep(g1, last, newId);
      var r := AddAsInputOf(g, newId, order);
      forall k | k in g && k != newId
        ensures r[k] == if k in order then WithInput(g[k], newId) else g[k]
      {
        assert k in order <==> k in init || k == last;
      }
    }
  }

  /** The new tool records as outputs exactly the targets that took it as an input. */
  lemma {:induction false} AddAsInputOfNewTool(g: Graph, newId: int, order: seq<int>)
    requires newId in g && forall i :: 0 <= i < |order| ==> order[i] in g
    requires Distinct(order) && newId !in order
    ensures AddAsInputOf(g, newId, order)[newId] ==
              g[newId].(outputs := g[newId].outputs + AddedTargets(g, newId, order))
    decreases |order|
  {
    if order == [] {
      assert AddedTargets(g, newId, order) == {};
    } else {
      var init, last := order[..|order| - 1], order[|order| - 1];
      DistinctInit(order);
      AddAsInputOfNewTool(g, newId, init);
      AddAsInputOfOthers(g, newId, init);
      AddAsInputOfSnoc(g, newId, order);
      var g1 := AddAsInputOf(g, newId, init);
      assert g1[last] == g[last];
      TargetStep(g1, last, newId);
      var added := newId in WithInput(g[last], newId).inputs;
      assert AddedTargets(g, newId, order) ==
        AddedTargets(g, newId, init) + (if added then {last} else {}) by {
        ElementsSnoc(order);
      }
    }
  }

  /** One iteration of the loop over `output_ids`, on target `o`. */
  lemma TargetStep(g: Graph, o: int, newId: int)
    requires o in g && newId in g && o != newId
    ensures var r, added := AddInputStep(g, o, newId), newId in WithInput(g[o], newId).inputs;
      && r[o] == WithInput(g[o], newId)
      && r[newId] == (if added then g[newId].(outputs := g[newId].outputs + {o}) else g[newId])
      && forall k :: k in g && k != o && k != newId ==> r[k] == g[k]
  {
  }

  /** The ids a caller passed, or none when it passed `None`. */
  function IdsGiven(ids: Option<seq<int>>): (r: seq<int>)
    ensures ids.Some? ==> r == ids.value
    ensures ids.None? ==> r == []
  {
    if ids.Some? then ids.value else []
  }

  /** An absent output id raises after the input edges are made and before any output edge. */
  lemma InsertEdgesOutputsFail(g1: Graph, id: int, inputs: Option<seq<int>>, outputs: Option<seq<int>>,
                               c: Option<CoordinatesArg>)
    requires id in g1 && forall i :: 0 <= i < |IdsGiven(inputs)| ==> IdsGiven(inputs)[i] in g1
    requires exists i :: 0 <= i < |IdsGiven(outputs)| && IdsGiven(outputs)[i] !in g1
    ensures InsertEdges(g1, id, inputs, outputs, c) == (AddInputs(g1, id, IdsGiven(inputs)), Some(ToolDoesNotExist))
  {
    var g2 := AddInputs(g1, id, IdsGiven(inputs));
    assert inputs.Some? ==> AddToolInput(g1, id, inputs.value) == (g2, None);
    assert inputs.None? ==> g2 == g1;
  }

  /** With every id present and distinct output ids other than the new tool, `insert_tool` makes
      the input edges, then the output edges, then places the coordinates. */
  lemma InsertEdgesSucceeds(g1: Graph, id: int, inputs: Option<seq<int>>, outputs: Option<seq<int>>,
                            c: Option<CoordinatesArg>)
    requires id in g1 && forall i :: 0 <= i < |IdsGiven(inputs)| ==> IdsGiven(inputs)[i] in g1
    requires forall i :: 0 <= i < |IdsGiven(outputs)| ==> IdsGiven(outputs)[i] in g1
    ensures var g3 := AddAsInputOf(AddInputs(g1, id, IdsGiven(inputs)), id, IdsGiven(outputs));
      InsertEdges(g1, id, inputs, outputs, c) == if c.Some? then SetToolCoordinates(g3, id, c) else (g3, None)
  {
    var g2 := AddInputs(g1, id, IdsGiven(inputs));
    assert inputs.Some? ==> AddToolInput(g1, id, inputs.value) == (g2, None);
    assert inputs.None? ==> g2 == g1;
    assert outputs.None? ==> AddAsInputOf(g2, id, IdsGiven(outputs)) == g2;
  }

  /** What the part of `insert_tool` after the registration leaves when it succeeds with distinct
      output ids other than the new tool: the new tool's inputs are those the input loop left it,
      each output target tries to take the new tool as an input and the new tool lists exactly
      those that did as outputs; no other tool changes; then coordinates, when given, are placed
      as the setter places them. */
  lemma InsertEdgesOutcome(g1: Graph, id: int, inputs: Option<seq<int>>, outputs: Option<seq<int>>,
                           c: Option<CoordinatesArg>)
    requires id in g1 && forall i :: 0 <= i < |IdsGiven(inputs)| ==> IdsGiven(inputs)[i] in g1
    requires forall i :: 0 <= i < |IdsGiven(outputs)| ==> IdsGiven(outputs)[i] in g1
    requires Distinct(IdsGiven(outputs)) && id !in IdsGiven(outputs)
    ensures var (r, e) := InsertEdges(g1, id, inputs, outputs, c);
      var g2, outs := AddInputs(g1, id, IdsGiven(inputs)), IdsGiven(outputs);
      && r[id].inputs == g2[id].inputs
      && r[id].outputs == g2[id].outputs + AddedTargets(g2, id, outs)
      && (forall o :: o in outs ==> r[o] == WithInput(g2[o], id))
      && (forall k :: k in g1 && k != id && k !in outs ==> r[k] == g2[k])
      && (c.None? ==> e.None? && r[id].x == g2[id].x && r[id].y == g2[id].y)
      && (c.Some? ==>
            var p := Placed(g2[id], c.value);
            && e == (if p.1 == Done then None else Some(SetterRaised(p.1)))
            && r[id].x == p.0.x && r[id].y == p.0.y)
  {
    var g2, outs := AddInputs(g1, id, IdsGiven(inputs)), IdsGiven(outputs);
    var g3 := AddAsInputOf(g2, id, outs);
    InsertEdgesSucceeds(g1, id, inputs, outputs, c);
    AddAsInputOfEffect(g2, id, outs);
    assert g3[id] == g2[id].(outputs := g2[id].outputs + AddedTargets(g2, id, outs));
  }

  lemma {:induction false} AddAsInputOfClasses(g: Graph, newId: int, order: seq<int>)
    requires newId in g && forall i :: 0 <= i < |order| ==> order[i] in g
    ensures AddAsInputOf(g, newId, order)[newId].toolClass == g[newId].toolClass
    decreases |order|
  {
    if order != [] {
      var init := order[..|order| - 1];
      var o := order[|order| - 1];
      AddAsInputOfClasses(g, newId, init);
      var g1 := AddAsInputOf(g, newId, init);
      AddInputsEffect(g1, o, [newId]);
      assert [newId][..0] == [];
      assert AddInputs(g1, o, [newId]) == AddInputStep(g1, o, newId);
    }
  }

  // ---------------------------------------------------------------------------------------
  // The code as written: two deviations of the functions above from workflows/workflow.py

  /** One iteration of `add_tool_input`'s loop as written: the input tool records the tool as
      an output even when the tool skipped the input for capacity. */
  function AddInputStepAsWritten(g: Graph, tid: int, x: int): (r: Graph)
    requires tid in g && x in g
    ensures r.Keys == g.Keys
  {
    var g1 := g[tid := WithInput(g[tid], x)];
    g1[x := WithOutput(g1[x], tid)]
  }

  /** As written, a step keeps every invariant except that outputs mirror inputs: `x in t.inputs`
      still implies `t in x.outputs`. */
  lemma AddInputStepAsWrittenMirrorsInputs(g: Graph, tid: int, x: int)
    requires WellIdentified(g) && Closed(g) && InputsMirrored(g) && tid in g && x in g
    ensures var r := AddInputStepAsWritten(g, tid, x);
      WellIdentified(r) && Closed(r) && InputsMirrored(r)
  {
    AsWrittenIdentified(g, tid, x);
    AsWrittenClosed(g, tid, x);
    AsWrittenInputsMirrored(g, tid, x);
  }

  lemma AsWrittenIdentified(g: Graph, tid: int, x: int)
    requires WellIdentified(g) && tid in g && x in g
    ensures WellIdentified(AddInputStepAsWritten(g, tid, x))
  {
    var r := AddInputStepAsWritten(g, tid, x);
    forall k | k in r
      ensures r[k].id == g[k].id && r[k].toolClass == g[k].toolClass && WithinCapacity(r[k])
    {
      if k != tid && k != x {
        assert r[k] == g[k];
      }
    }
  }

  lemma AsWrittenClosed(g: Graph, tid: int, x: int)
    requires Closed(g) && tid in g && x in g
    ensures Closed(AddInputStepAsWritten(g, tid, x))
  {
  }

  lemma AsWrittenInputsMirrored(g: Graph, tid: int, x: int)
    requires InputsMirrored(g) && tid in g && x in g
    ensures InputsMirrored(AddInputStepAsWritten(g, tid, x))
  {
  }

  /** The loop of `add_tool_input` as written, over the cleaned ids in iteration order. */
  function AddInputsAsWritten(g: Graph, tid: int, order: seq<int>): (r: Graph)
    requires tid in g && forall i :: 0 <= i < |order| ==> order[i] in g
    ensures r.Keys == g.Keys
    decreases |order|
  {
    if order == [] then g
    else AddInputStepAsWritten(AddInputsAsWritten(g, tid, order[..|order| - 1]), tid, order[|order| - 1])
  }

  /** `add_tool_input(tool_id, input_ids)` as written. */
  function AddToolInputAsWritten(g: Graph, tid: int, order: seq<int>): (r: (Graph, Option<Raised>))
    ensures r.1.None? <==> tid in g && forall i :: 0 <= i < |order| ==> order[i] in g
    ensures r.1.Some? ==> r == (g, Some(ToolDoesNotExist))
  {
    if tid !in g then (g, Some(ToolDoesNotExist))
    else if CleanToolIds(g, order).Some? then (g, CleanToolIds(g, order))
    else (AddInputsAsWritten(g, tid, order), None)
  }

  /** As written, a whole call of `add_tool_input` keeps ids, capacities and closure, and keeps
      every recorded input mirrored as an output (`x in t.inputs` implies `t in x.outputs`),
      whatever ids are passed in whatever order. */
  lemma {:induction false} AddToolInputAsWrittenMirrorsInputs(g: Graph, tid: int, order: seq<int>)
    requires WellIdentified(g) && Closed(g) && InputsMirrored(g)
    ensures var r := AddToolInputAsWritten(g, tid, order).0;
      WellIdentified(r) && Closed(r) && InputsMirrored(r)
  {
    if tid in g && CleanToolIds(g, order).None? {
      AddInputsAsWrittenMirrorsInputs(g, tid, order);
    }
  }

  lemma {:induction false} AddInputsAsWrittenMirrorsInputs(g: Graph, tid: int, order: seq<int>)
    requires WellIdentified(g) && Closed(g) && InputsMirrored(g)
    requires tid in g && forall i :: 0 <= i < |order| ==> order[i] in g
    ensures var r := AddInputsAsWritten(g, tid, order);
      WellIdentified(r) && Closed(r) && InputsMirrored(r)
    decreases |order|
  {
    if order != [] {
      var init := order[..|order| - 1];
      AddInputsAsWrittenMirrorsInputs(g, tid, init);
      AddInputStepAsWrittenMirrorsInputs(AddInputsAsWritten(g, tid, init), tid, order[|order| - 1]);
    }
  }

  /** Two input tools 1 and 2 (capacity 0) under the root. */
  function TwoInputTools(): (g: Graph)
    ensures ValidGraph(g)
  {
    map[ROOT_ID := NewTool(ROOT_ID, RootTool), 1 := NewTool(1, InputTool), 2 := NewTool(2, InputTool)]
  }

  /** As written, `add_tool_input(1, 2)` on two input tools makes 2 list 1 as an output although 1
      skipped the input; detaching tool 1 then leaves 2 listing a tool that no longer exists.
      The corrected step only records the skipped input in tool 1's errors. */
  lemma SkippedInputLeavesDanglingOutput()
    ensures var g := AddInputStepAsWritten(TwoInputTools(), 1, 2);
      && 2 !in g[1].inputs && 1 in g[2].outputs && !OutputsMirrored(g)
      && !Closed(Detach(g, 1))
    ensures var g := AddInputStep(TwoInputTools(), 1, 2);
      ValidGraph(g) && g == TwoInputTools()[1 := TwoInputTools()[1].(errors := ToolErrors(Some([SkippedInput(2, 0)]), None))]
    ensures AddToolInputAsWritten(TwoInputTools(), 1, [2]) == (AddInputStepAsWritten(TwoInputTools(), 1, 2), None)
  {
    var g0 := TwoInputTools();
    assert [2][..0] == [];
    var g := AddInputStepAsWritten(g0, 1, 2);
    assert 1 in Detach(g, 1)[2].outputs;
    AddInputStepValid(g0, 1, 2);
    var s1 := WithInput(g0[1], 2);
    assert g0[1] == NewTool(1, InputTool);
    assert InputMessages(g0[1].errors) + [SkippedInput(2, 0)] == [SkippedInput(2, 0)];
    assert s1 == g0[1].(errors := ToolErrors(Some([SkippedInput(2, 0)]), None));
    assert AddInputStep(g0, 1, 2) == g0[1 := s1];
  }

  /** The body of `remove_tool` for one non-root tool `t`, as written: it iterates over the live
      `outputs` set of `t` (then over the live `inputs` set) while each iteration's call to
      `remove_tool_input` removes the visited element from that same set. CPython's set iterator
      then raises RuntimeError ("Set changed size during iteration") when it is asked for the
      next element, so a linked tool is never deleted: the first visited edge is removed and the
      RuntimeError is raised. The first visited element is CPython's choice; here it is some
      element of the set. */
  ghost function RemoveOneAsWritten(g: Graph, t: int): (r: (Graph, Option<Raised>))
    requires t in g
    ensures r.1.None? <==> g[t].outputs == {} && g[t].inputs == {}
    ensures r.1.None? ==> r.0.Keys == g.Keys - {t}
    ensures r.1.Some? ==> r.0.Keys == g.Keys
  {
    if g[t].outputs != {} then
      NonEmpty(g[t].outputs);
      var o :| o in g[t].outputs;
      if o !in g then (g, Some(ToolDoesNotExist))
      else (RemoveInputStep(g, o, t), Some(SetChangedSizeDuringIteration))
    else if g[t].inputs != {} then
      NonEmpty(g[t].inputs);
      var i :| i in g[t].inputs;
      if i !in g then (g, Some(ToolDoesNotExist))
      else (RemoveInputStep(g, t, i), Some(SetChangedSizeDuringIteration))
    else (map k | k in g && k != t :: g[k], None)
  }

  /** As written, removing a non-root tool that has an input or an output raises and leaves the
      tool in the workflow, while the snapshot iteration of `RemoveTool` deletes it and leaves no
      reference to it. Only an unlinked tool is removed the same way by both. */
  lemma RemovingLinkedToolRaisesAsWritten(g: Graph, t: int)
    requires ValidGraph(g) && t in g && t != ROOT_ID
    ensures RemoveOneAsWritten(g, t).1 == Some(SetChangedSizeDuringIteration) <==>
              g[t].outputs != {} || g[t].inputs != {}
    ensures RemoveOneAsWritten(g, t).1.Some? ==> t in RemoveOneAsWritten(g, t).0
    ensures RemoveOneAsWritten(g, t).1.None? ==> RemoveOneAsWritten(g, t).0 == RemoveTool(g, [t]).0
    ensures RemoveTool(g, [t]).1.None? && t !in RemoveTool(g, [t]).0 && Unreferenced(RemoveTool(g, [t]).0, t)
  {
    RemoveOneAsWrittenOutcome(g, t);
    RemoveSingle(g, t);
  }

  lemma RemoveOneAsWrittenOutcome(g: Graph, t: int)
    requires Closed(g) && t in g
    ensures RemoveOneAsWritten(g, t).1 == Some(SetChangedSizeDuringIteration) <==>
              g[t].outputs != {} || g[t].inputs != {}
    ensures RemoveOneAsWritten(g, t).1.Some? ==> t in RemoveOneAsWritten(g, t).0
    ensures RemoveOneAsWritten(g, t).1.None? ==> RemoveOneAsWritten(g, t).0 == Detach(g, t)
  {
  }

  /** `remove_tool([t])` for a single non-root tool of a valid workflow. */
  lemma RemoveSingle(g: Graph, t: int)
    requires ValidGraph(g) && t in g && t != ROOT_ID
    ensures RemoveTool(g, [t]) == (Detach(g, t), None)
    ensures t !in Detach(g, t) && Unreferenced(Detach(g, t), t)
  {
    assert t !in Detach(g, t) && Unreferenced(Detach(g, t), t) by {
      DetachValid(g, t);
    }
    assert CleanToolIds(g, [t]).None?;
    assert RemoveEach(g, [t]) == RemoveEach(Detach(g, t), []) by {
      RemoveEachStep(g, [t]);
      assert [t][1..] == [];
    }
  }
}
