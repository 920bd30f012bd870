/** Running a stored workflow (`WorkflowService` in panderyx/workflows/services.py): the tools
    are executed in their execution order, each on the results of its inputs, by the executor
    its configured type selects, and the results are kept in a dictionary keyed by tool id.
    The executors themselves are a parameter `exec`. */
module WorkflowServices {
  import opened Common
  import opened ToolMapping
  import opened ExecutionOrder

  /** A workflow as the service reads it: its id, its tools with their inputs, and the
      `type` entry of each tool's configuration (absent when the configuration has none). */
  datatype StoredWorkflow = StoredWorkflow(id: string, flow: Flow, types: map<int, string>)

  /** The message and code of the WorkflowServiceException raised when there is no order. */
  const RUN_WITHOUT_INPUTS: string := "Workflow cannot be run without any input files."
  const WORKFLOW_NO_INPUTS: string := "workflow_no_inputs"

  /** What `run_workflow` can raise. */
  datatype RunError =
    | WorkflowServiceError(workflowId: string, message: string, code: string)
      // the ordering raised ValueError
    | MissingResult(toolId: int)
      // KeyError: a result the tool's inputs need has not been stored
    | UnknownToolType(toolId: int)
      // KeyError: no `type` in the configuration, or a type outside the table
    | ToolFailed(toolId: int, reason: string)
      // the executor raised

  /** An executor: given the kind, the tool's id and the results of its inputs, a result or the
      reason it failed. */
  type Executor<!D> = (ToolKind, int, map<int, D>) -> Result<D, string>

  /** The dictionary `input_dfs`: the stored result of each of the tool's inputs, keyed by the
      input's id. */
  function InputResults<D>(f: Flow, results: map<int, D>, t: int): (m: map<int, D>)
    requires InputsOf(f, t) <= results.Keys
    ensures m.Keys == InputsOf(f, t)
    ensures forall x :: x in m ==> m[x] == results[x]
  {
    map x | x in InputsOf(f, t) :: results[x]
  }

  /** One pass of the loop body for tool `t`, on the results stored so far. */
  function RunTool<D>(w: StoredWorkflow, results: map<int, D>, t: int, exec: Executor<D>): (r: Result<D, RunError>)
    ensures r.Err? && r.error.MissingResult? <==> !(InputsOf(w.flow, t) <= results.Keys)
    ensures r.Err? && r.error.UnknownToolType? <==>
              InputsOf(w.flow, t) <= results.Keys && (t !in w.types || Lookup(w.types[t]).None?)
    ensures r.Err? ==> !r.error.WorkflowServiceError? && r.error.toolId == t
    ensures r.Ok? ==> t in w.types && Lookup(w.types[t]).Some?
    ensures InputsOf(w.flow, t) <= results.Keys && t in w.types && Lookup(w.types[t]).Some? ==>
              var outcome := exec(Lookup(w.types[t]).value, t, InputResults(w.flow, results, t));
              && (outcome.Ok? ==> r == Ok(outcome.value))
              && (outcome.Err? ==> r == Err(ToolFailed(t, outcome.error)))
  {
    if !(InputsOf(w.flow, t) <= results.Keys) then Err(MissingResult(t))
    else if t !in w.types || Lookup(w.types[t]).None? then Err(UnknownToolType(t))
    else
      match exec(Lookup(w.types[t]).value, t, InputResults(w.flow, results, t))
      case Err(reason) => Err(ToolFailed(t, reason))
      case Ok(d) => Ok(d)
  }

  /** Python's `keys[t] = ...` on the key order of a dictionary: a new key goes last, an
      existing one keeps its place. */
  function StoreKey<D>(keys: seq<int>, results: map<int, D>, t: int): (r: seq<int>)
    ensures |keys| <= |r| <= |keys| + 1 && r[..|keys|] == keys
    ensures Elements(keys) == results.Keys ==>
              Elements(r) == results.Keys + {t} && (Distinct(keys) ==> Distinct(r))
  {
    if t in results then keys
    else
      assert (keys + [t])[..|keys|] == keys;
      ElementsSnoc(keys + [t]);
      keys + [t]
  }

  /** The loop of `run_workflow` over `order`: the results and key order it leaves and the
      error that ended it, if any. */
  function RunFrom<D>(w: StoredWorkflow, results: map<int, D>, keys: seq<int>, order: seq<int>, exec: Executor<D>)
    : (r: (map<int, D>, seq<int>, Option<RunError>))
    ensures results.Keys <= r.0.Keys <= results.Keys + Elements(order)
    ensures r.2.Some? ==> !r.2.value.WorkflowServiceError? && r.2.value.toolId in order
    decreases |order|
  {
    if order == [] then (results, keys, None)
    else
      ElementsCons(order);
      match RunTool(w, results, order[0], exec)
      case Err(e) => (results, keys, Some(e))
      case Ok(d) => RunFrom(w, results[order[0] := d], StoreKey(keys, results, order[0]), order[1..], exec)
  }

  /** `run_workflow` from the given dictionary of results. */
  function Run<D>(w: StoredWorkflow, results: map<int, D>, keys: seq<int>, exec: Executor<D>)
    : (r: (map<int, D>, seq<int>, Option<RunError>))
    ensures r.2 == Some(WorkflowServiceError(w.id, RUN_WITHOUT_INPUTS, WORKFLOW_NO_INPUTS)) <==>
              ToolExecutionOrder(w.flow).Err?
    ensures ToolExecutionOrder(w.flow).Err? ==> r.0 == results && r.1 == keys
    ensures ToolExecutionOrder(w.flow).Ok? ==>
              results.Keys <= r.0.Keys <= results.Keys + Elements(ToolExecutionOrder(w.flow).value)
  {
    match ToolExecutionOrder(w.flow)
    case Err(_) => (results, keys, Some(WorkflowServiceError(w.id, RUN_WITHOUT_INPUTS, WORKFLOW_NO_INPUTS)))
    case Ok(order) => RunFrom(w, results, keys, order, exec)
  }

  /** One entry of `get_outputs`. */
  datatype Output = Output(toolId: int, data: string)

  /** The list comprehension of `get_outputs` over the dictionary's items, in key order. */
  function Outputs<D>(results: map<int, D>, keys: seq<int>, toJson: D -> string): (outs: seq<Output>)
    requires Elements(keys) <= results.Keys
    ensures |outs| == |keys|
    ensures forall i :: 0 <= i < |keys| ==> outs[i] == Output(keys[i], toJson(results[keys[i]]))
    decreases |keys|
  {
    if keys == [] then []
    else
      ElementsCons(keys);
      [Output(keys[0], toJson(results[keys[0]]))] + Outputs(results, keys[1..], toJson)
  }

  /** The service: the workflow it runs and the dictionary `tool_result_dfs`, held as its
      key-to-result map and its key order. */
  class WorkflowService<D> {
    const workflow: StoredWorkflow
    var toolResults: map<int, D>
    var resultOrder: seq<int>

    /** The key order lists every key once. */
    predicate Valid()
      reads this
    {
      Distinct(resultOrder) && Elements(resultOrder) == toolResults.Keys
    }

    constructor (workflow: StoredWorkflow)
      ensures this.workflow == workflow && toolResults == map[] && resultOrder == []
      ensures Valid()
    {
      this.workflow := workflow;
      toolResults := map[];
      resultOrder := [];
    }

    /** `run_workflow`. */
    method RunWorkflow(exec: Executor<D>) returns (error: Option<RunError>)
      requires Valid()
      modifies this
      ensures (toolResults, resultOrder, error) == Run(workflow, old(toolResults), old(resultOrder), exec)
      ensures Valid()
    {
      ghost var results0, keys0 := toolResults, resultOrder;
      RunKeepsKeyOrder(workflow, results0, keys0, exec);
      var ordering := ToolExecutionOrder(workflow.flow);
      if ordering.Err? {
        return Some(WorkflowServiceError(workflow.id, RUN_WITHOUT_INPUTS, WORKFLOW_NO_INPUTS));
      }
      var order := ordering.value;
      for i := 0 to |order|
        invariant RunFrom(workflow, toolResults, resultOrder, order[i..], exec) == RunFrom(workflow, results0, keys0, order, exec)
      {
        var t := order[i];
        assert order[i..][0] == t && order[i..][1..] == order[i + 1..];
        var failure := RunOneTool(t, exec);
        if failure.Some? {
          return failure;
        }
      }
      return None;
    }

    /** The body of the loop of `run_workflow` for tool `t`: collect the results of its inputs,
        select the executor by its type and store what the executor returns. */
    method RunOneTool(t: int, exec: Executor<D>) returns (failure: Option<RunError>)
      modifies this
      ensures var step := RunTool(workflow, old(toolResults), t, exec);
        && (step.Err? ==> failure == Some(step.error) && toolResults == old(toolResults) && resultOrder == old(resultOrder))
        && (step.Ok? ==> failure == None && toolResults == old(toolResults)[t := step.value]
                         && resultOrder == StoreKey(old(resultOrder), old(toolResults), t))
    {
      var inputIds := InputsOf(workflow.flow, t);
      if !(inputIds <= toolResults.Keys) {
        return Some(MissingResult(t));
      }
      var inputDfs := map x | x in inputIds :: toolResults[x];
      if t !in workflow.types || Lookup(workflow.types[t]).None? {
        return Some(UnknownToolType(t));
      }
      var outcome := exec(Lookup(workflow.types[t]).value, t, inputDfs);
      if outcome.Err? {
        return Some(ToolFailed(t, outcome.error));
      }
      if t !in toolResults {
        resultOrder := resultOrder + [t];
      }
      toolResults := toolResults[t := outcome.value];
      return None;
    }

    /** `get_outputs`. */
    function GetOutputs(toJson: D -> string): (outs: seq<Output>)
      requires Valid()
      reads this
      ensures |outs| == |resultOrder|
      ensures forall i :: 0 <= i < |outs| ==>
                outs[i].toolId == resultOrder[i] && resultOrder[i] in toolResults &&
                outs[i].data == toJson(toolResults[resultOrder[i]])
    {
      Outputs(toolResults, resultOrder, toJson)
    }
  }

  // ---------------------------------------------------------------------------------------
  // Properties of a run

  /** Storing a result keeps the key order listing every key once. */
  lemma {:induction false} RunFromKeepsKeyOrder<D>(w: StoredWorkflow, results: map<int, D>, keys: seq<int>, order: seq<int>, exec: Executor<D>)
    requires Distinct(keys) && Elements(keys) == results.Keys
    ensures var (r, k, _) := RunFrom(w, results, keys, order, exec); Distinct(k) && Elements(k) == r.Keys
    decreases |order|
  {
    if order != [] && RunTool(w, results, order[0], exec).Ok? {
      var t := order[0];
      var k := StoreKey(keys, results, t);
      if t !in results {
        ElementsSnoc(k);
        assert k[..|k| - 1] == keys;
      }
      RunFromKeepsKeyOrder(w, results[t := RunTool(w, results, t, exec).value], k, order[1..], exec);
    }
  }

  lemma RunKeepsKeyOrder<D>(w: StoredWorkflow, results: map<int, D>, keys: seq<int>, exec: Executor<D>)
    requires Distinct(keys) && Elements(keys) == results.Keys
    ensures var (r, k, _) := Run(w, results, keys, exec); Distinct(k) && Elements(k) == r.Keys
  {
    if ToolExecutionOrder(w.flow).Ok? {
      RunFromKeepsKeyOrder(w, results, keys, ToolExecutionOrder(w.flow).value, exec);
    }
  }

  /** A workflow whose every tool has an input raises the service error with the workflow's
      id, and no tool is run. */
  lemma NoOrderNoRun<D>(w: StoredWorkflow, results: map<int, D>, keys: seq<int>, exec: Executor<D>)
    requires forall t :: t in w.flow.tools ==> InputsOf(w.flow, t) != {}
    ensures Run(w, results, keys, exec) ==
              (results, keys, Some(WorkflowServiceError(w.id, "Workflow cannot be run without any input files.", "workflow_no_inputs")))
  {
  }

  /** Either every tool of `order` ran, or the loop stopped at the first tool that failed: all
      tools before it ran and it, with everything after it, stored nothing. */
  lemma {:induction false} StopsAtFirstError<D>(w: StoredWorkflow, results: map<int, D>, keys: seq<int>, order: seq<int>, exec: Executor<D>)
    ensures var (r, k, e) := RunFrom(w, results, keys, order, exec);
      e.Some? ==> exists i ::
                    && 0 <= i < |order|
                    && RunFrom(w, results, keys, order[..i], exec) == (r, k, None)
                    && RunTool(w, r, order[i], exec) == Err(e.value)
    decreases |order|
  {
    var (r, k, e) := RunFrom(w, results, keys, order, exec);
    if order != [] && e.Some? {
      match RunTool(w, results, order[0], exec)
      case Err(_) =>
        assert order[..0] == [];
      case Ok(d) =>
        var results1, keys1 := results[order[0] := d], StoreKey(keys, results, order[0]);
        assert RunFrom(w, results, keys, order, exec) == RunFrom(w, results1, keys1, order[1..], exec);
        StopsAtFirstError(w, results1, keys1, order[1..], exec);
        var i :| 0 <= i < |order[1..]| &&
          RunFrom(w, results1, keys1, order[1..][..i], exec) == (r, k, None) &&
          RunTool(w, r, order[1..][i], exec) == Err(e.value);
        var prefix := order[..i + 1];
        assert prefix[1..] == order[1..i + 1] == order[1..][..i];
        assert RunFrom(w, results, keys, prefix, exec) == RunFrom(w, results1, keys1, prefix[1..], exec);
        assert order[i + 1] == order[1..][i];
    }
  }

  /** Each tool of `order` has its inputs among `stored` and the tools before it. */
  predicate InputsStored(f: Flow, stored: set<int>, order: seq<int>) {
    forall j :: 0 <= j < |order| ==> InputsOf(f, order[j]) <= stored + Elements(order[..j])
  }

  lemma InputsStoredShift(f: Flow, stored: set<int>, order: seq<int>)
    requires order != [] && InputsStored(f, stored, order)
    ensures InputsOf(f, order[0]) <= stored
    ensures InputsStored(f, stored + {order[0]}, order[1..])
  {
    assert order[..0] == [];
    var t, rest := order[0], order[1..];
    forall j | 0 <= j < |rest|
      ensures InputsOf(f, rest[j]) <= stored + {t} + Elements(rest[..j])
    {
      assert rest[j] == order[j + 1];
      assert order[..j + 1] == [t] + rest[..j];
      ElementsAppend([t], rest[..j]);
    }
  }

  /** Every tool's inputs are stored before it runs, so the lookup of an input result cannot
      fail, when each tool of `order` comes after its inputs. */
  lemma {:induction false} NoMissingResultFrom<D>(w: StoredWorkflow, results: map<int, D>, keys: seq<int>, order: seq<int>, exec: Executor<D>)
    requires InputsStored(w.flow, results.Keys, order)
    ensures var e := RunFrom(w, results, keys, order, exec).2; !(e.Some? && e.value.MissingResult?)
    decreases |order|
  {
    if order != [] {
      InputsStoredShift(w.flow, results.Keys, order);
      match RunTool(w, results, order[0], exec)
      case Err(_) =>
      case Ok(d) =>
        var t := order[0];
        assert results[t := d].Keys == results.Keys + {t};
        NoMissingResultFrom(w, results[t := d], StoreKey(keys, results, t), order[1..], exec);
    }
  }

  /** A run never stops on a missing input result: the execution order puts every tool after
      its inputs. */
  lemma NoMissingResult<D>(w: StoredWorkflow, results: map<int, D>, keys: seq<int>, exec: Executor<D>)
    ensures var e := Run(w, results, keys, exec).2; !(e.Some? && e.value.MissingResult?)
  {
    var ordering := ToolExecutionOrder(w.flow);
    if ordering.Ok? {
      OrderRespectsInputs(w.flow);
      var order := ordering.value;
      assert InputsStored(w.flow, results.Keys, order) by {
        forall j | 0 <= j < |order|
          ensures InputsOf(w.flow, order[j]) <= results.Keys + Elements(order[..j])
        {
        }
      }
      NoMissingResultFrom(w, results, keys, order, exec);
    }
  }

  /** A completed loop stores a result for every tool of `order`, and for no other tool. */
  lemma {:induction false} RunFromStoresAll<D>(w: StoredWorkflow, results: map<int, D>, keys: seq<int>, order: seq<int>, exec: Executor<D>)
    ensures var run := RunFrom(w, results, keys, order, exec);
      run.2.None? ==> run.0.Keys == results.Keys + Elements(order)
    decreases |order|
  {
    if order != [] {
      match RunTool(w, results, order[0], exec)
      case Err(_) =>
      case Ok(d) =>
        RunFromStoresAll(w, results[order[0] := d], StoreKey(keys, results, order[0]), order[1..], exec);
        ElementsCons(order);
    }
  }

  /** A completed loop over distinct tools without stored results appends them to the key
      order in the order they ran. */
  lemma {:induction false} RunFromAppendsKeys<D>(w: StoredWorkflow, results: map<int, D>, keys: seq<int>, order: seq<int>, exec: Executor<D>)
    requires Distinct(order)
    requires forall j :: 0 <= j < |order| ==> order[j] !in results
    ensures var run := RunFrom(w, results, keys, order, exec);
      run.2.None? ==> run.1 == keys + order
    decreases |order|
  {
    if order != [] {
      match RunTool(w, results, order[0], exec)
      case Err(_) =>
      case Ok(d) =>
        var t, rest := order[0], order[1..];
        DistinctTail(order);
        forall j | 0 <= j < |rest|
          ensures rest[j] !in results[t := d]
        {
          assert rest[j] == order[j + 1];
        }
        RunFromAppendsKeys(w, results[t := d], keys + [t], rest, exec);
        assert keys + [t] + rest == keys + order;
    }
  }

  /** Storing the results of `order` leaves every other entry alone. */
  lemma {:induction false} RunFromFrame<D>(w: StoredWorkflow, results: map<int, D>, keys: seq<int>, order: seq<int>, exec: Executor<D>, x: int)
    requires x in results && x !in order
    ensures var r := RunFrom(w, results, keys, order, exec).0; x in r && r[x] == results[x]
    decreases |order|
  {
    if order != [] {
      match RunTool(w, results, order[0], exec)
      case Err(_) =>
      case Ok(d) =>
        ElementsCons(order);
        assert x !in Elements(order[1..]);
        RunFromFrame(w, results[order[0] := d], StoreKey(keys, results, order[0]), order[1..], exec, x);
    }
  }

  /** A tool's step depends only on the results of its inputs. */
  lemma RunToolLocal<D>(w: StoredWorkflow, a: map<int, D>, b: map<int, D>, t: int, exec: Executor<D>)
    requires InputsOf(w.flow, t) <= a.Keys && InputsOf(w.flow, t) <= b.Keys
    requires forall x :: x in InputsOf(w.flow, t) ==> a[x] == b[x]
    ensures RunTool(w, a, t, exec) == RunTool(w, b, t, exec)
  {
    var fromA, fromB := InputResults(w.flow, a, t), InputResults(w.flow, b, t);
    assert forall x :: x in fromA ==> fromA[x] == fromB[x];
    assert fromA == fromB;
  }

  /** After a completed loop from results that hold none of `order`, each stored result is
      what the tool's executor returns on the stored results of its inputs. */
  lemma {:induction false} RunFromConsistent<D>(w: StoredWorkflow, results: map<int, D>, keys: seq<int>, order: seq<int>, exec: Executor<D>)
    requires Distinct(order)
    requires forall j :: 0 <= j < |order| ==> order[j] !in results
    ensures var (r, _, e) := RunFrom(w, results, keys, order, exec);
      e.None? ==> forall u :: u in order ==> u in r && RunTool(w, r, u, exec) == Ok(r[u])
    decreases |order|
  {
    var (r, k, e) := RunFrom(w, results, keys, order, exec);
    if order != [] && e.None? {
      var t := order[0];
      var rest := order[1..];
      var d := RunTool(w, results, t, exec).value;
      var results1 := results[t := d];
      DistinctTail(order);
      forall j | 0 <= j < |rest|
        ensures rest[j] !in results1
      {
        assert rest[j] == order[j + 1];
      }
      RunFromConsistent(w, results1, StoreKey(keys, results, t), rest, exec);
      RunFromFrame(w, results1, StoreKey(keys, results, t), rest, exec, t);
      forall x | x in InputsOf(w.flow, t)
        ensures x in r && r[x] == results[x]
      {
        assert x in results;
        forall j | 0 <= j < |rest|
          ensures rest[j] != x
        {
          assert rest[j] == order[j + 1];
        }
        RunFromFrame(w, results1, StoreKey(keys, results, t), rest, exec, x);
      }
      RunToolLocal(w, results, r, t, exec);
      forall u | u in order
        ensures u in r && RunTool(w, r, u, exec) == Ok(r[u])
      {
        if u != t {
          var j :| 0 <= j < |order| && order[j] == u;
          assert u == rest[j - 1];
        }
      }
    }
  }

  lemma RunFromFresh<D>(w: StoredWorkflow, order: seq<int>, exec: Executor<D>)
    requires Distinct(order)
    ensures var run := RunFrom(w, map[], [], order, exec);
      run.2.None? ==> run.1 == order && run.0.Keys == Elements(order) &&
                      forall t :: t in order ==> RunTool(w, run.0, t, exec) == Ok(run.0[t])
  {
    var run := RunFrom(w, map[], [], order, exec);
    if run.2.None? {
      assert run.1 == order by {
        RunFromAppendsKeys(w, map[], [], order, exec);
        assert [] + order == order;
      }
      assert run.0.Keys == Elements(order) by {
        RunFromStoresAll(w, map[], [], order, exec);
      }
      assert forall t :: t in order ==> RunTool(w, run.0, t, exec) == Ok(run.0[t]) by {
        RunFromConsistent(w, map[], [], order, exec);
      }
    }
  }

  /** A successful run of a fresh service, on a workflow whose tools are distinct, stores one
      result per tool of the execution order, in that order, and each is the executor's result
      on the stored results of the tool's inputs. */
  lemma RunFromEmpty<D>(w: StoredWorkflow, exec: Executor<D>)
    requires Distinct(w.flow.tools)
    ensures var (r, k, e) := Run(w, map[], [], exec);
      e.None? ==>
        && ToolExecutionOrder(w.flow).Ok?
        && k == ToolExecutionOrder(w.flow).value
        && r.Keys == Elements(k)
        && forall t :: t in k ==> RunTool(w, r, t, exec) == Ok(r[t])
  {
    var ordering := ToolExecutionOrder(w.flow);
    if ordering.Ok? {
      OrderDistinct(w.flow);
      RunFromFresh(w, ordering.value, exec);
    }
  }

  /** With every tool typed by a name in the table and an executor that never fails, the run
      succeeds. */
  lemma {:induction false} RunFromSucceeds<D>(w: StoredWorkflow, results: map<int, D>, keys: seq<int>, order: seq<int>, exec: Executor<D>)
    requires forall t :: t in order ==> t in w.types && Lookup(w.types[t]).Some?
    requires forall k, t, m :: exec(k, t, m).Ok?
    requires !(var e := RunFrom(w, results, keys, order, exec).2; e.Some? && e.value.MissingResult?)
    ensures RunFrom(w, results, keys, order, exec).2 == None
    decreases |order|
  {
    if order != [] {
      var t := order[0];
      assert t in order;
      var d := RunTool(w, results, t, exec).value;
      assert forall u :: u in order[1..] ==> u in order;
      RunFromSucceeds(w, results[t := d], StoreKey(keys, results, t), order[1..], exec);
    }
  }

  /** With every tool typed by a name in the table and executors that never fail, a workflow
      that has an execution order runs to completion. */
  lemma RunSucceeds<D>(w: StoredWorkflow, results: map<int, D>, keys: seq<int>, exec: Executor<D>)
    requires Distinct(w.flow.tools)
    requires forall t :: t in w.flow.tools ==> t in w.types && Lookup(w.types[t]).Some?
    requires forall k, t, m :: exec(k, t, m).Ok?
    ensures ToolExecutionOrder(w.flow).Ok? ==> Run(w, results, keys, exec).2 == None
  {
    var ordering := ToolExecutionOrder(w.flow);
    if ordering.Ok? {
      var order := ordering.value;
      NoMissingResult(w, results, keys, exec);
      assert Run(w, results, keys, exec) == RunFrom(w, results, keys, order, exec);
      OrderDistinct(w.flow);
      forall t | t in order
        ensures t in w.flow.tools
      {
        assert t in Elements(order);
      }
      RunFromSucceeds(w, results, keys, order, exec);
    }
  }

  /** The outputs of a fresh service after a successful run list the tools in execution order. */
  lemma OutputsFollowOrder<D>(w: StoredWorkflow, exec: Executor<D>, toJson: D -> string)
    requires Distinct(w.flow.tools)
    ensures var (r, k, e) := Run(w, map[], [], exec);
      e.None? ==>
        && Elements(k) <= r.Keys
        && |Outputs(r, k, toJson)| == |ToolExecutionOrder(w.flow).value|
        && forall i :: 0 <= i < |k| ==> Outputs(r, k, toJson)[i].toolId == ToolExecutionOrder(w.flow).value[i]
  {
    RunFromEmpty(w, exec);
  }

  // ---------------------------------------------------------------------------------------
  // The run expected by the test suite: an input_url tool feeding a describe_data tool

  /** Workflow `id` with an input_url tool `a` and a describe_data tool `b` reading from it. */
  function SourceAndDescribe(id: string, a: int, b: int): StoredWorkflow {
    StoredWorkflow(id, Flow([a, b], map[a := {}, b := {a}]), map[a := "input_url", b := "describe_data"])
  }

  lemma SourceAndDescribeStart(id: string, a: int, b: int)
    requires a != b
    ensures StartingTools(SourceAndDescribe(id, a, b).flow) == [a]
  {
    var f := SourceAndDescribe(id, a, b).flow;
    assert InputsOf(f, a) == {} && InputsOf(f, b) == {a};
    var k0 := set t | t in f.tools && InputsOf(f, t) == {};
    assert a in k0 && b !in k0;
    assert Filter([b], k0) == [] + Filter([], k0);
    assert Filter([a, b], k0) == [a] + Filter([b], k0);
  }

  lemma SourceAndDescribeNext(id: string, a: int, b: int)
    requires a != b
    ensures NextBatch(SourceAndDescribe(id, a, b).flow, {a}, [a]) == [b]
  {
    var f := SourceAndDescribe(id, a, b).flow;
    assert InputsOf(f, a) == {} && InputsOf(f, b) == {a};
    var k1 := set t | t in f.tools && Ready(f, {a}, [a], t);
    assert Elements([a]) == {a};
    assert a in InputsOf(f, b) * {a};
    assert Ready(f, {a}, [a], b);
    assert a !in k1 && b in k1;
    assert Filter([b], k1) == [b] + Filter([], k1);
    assert Filter([a, b], k1) == [] + Filter([b], k1);
  }

  lemma SourceAndDescribeEnd(id: string, a: int, b: int)
    requires a != b
    ensures NextBatch(SourceAndDescribe(id, a, b).flow, {b}, [a, b]) == []
  {
    var f := SourceAndDescribe(id, a, b).flow;
    var k2 := set t | t in f.tools && Ready(f, {b}, [a, b], t);
    assert Elements([a, b]) == {a, b};
    assert a !in k2 && b !in k2;
    assert Filter([b], k2) == [] + Filter([], k2);
    assert Filter([a, b], k2) == [] + Filter([b], k2);
  }

  /** The source is ordered first, and the describe tool after it. */
  lemma SourceAndDescribeOrder(id: string, a: int, b: int)
    requires a != b
    ensures ToolExecutionOrder(SourceAndDescribe(id, a, b).flow) == Ok([a, b])
  {
    var f := SourceAndDescribe(id, a, b).flow;
    assert Elements([a]) == {a};
    assert Elements([b]) == {b};
    assert [a] + [b] == [a, b];
    SourceAndDescribeStart(id, a, b);
    SourceAndDescribeNext(id, a, b);
    SourceAndDescribeEnd(id, a, b);
    assert FindNextTools(f, {b}, [a, b]) == [a, b];
  }

  /** With executors that succeed, the run of the two tools succeeds. */
  lemma SourceAndDescribeSucceeds<D>(id: string, a: int, b: int, exec: Executor<D>)
    requires a != b
    requires forall k, t, m :: exec(k, t, m).Ok?
    ensures Run(SourceAndDescribe(id, a, b), map[], [], exec).2 == None
  {
    var w := SourceAndDescribe(id, a, b);
    assert ToolExecutionOrder(w.flow).Ok? by {
      SourceAndDescribeOrder(id, a, b);
    }
    assert forall t :: t in w.flow.tools ==> t in w.types && Lookup(w.types[t]).Some? by {
      assert Lookup("input_url").Some? && Lookup("describe_data").Some?;
    }
    assert Distinct(w.flow.tools);
    RunSucceeds(w, map[], [], exec);
  }

  /** With executors that succeed, running the workflow yields two outputs, for the source and
      then the describe tool. */
  lemma SourceAndDescribeOutputs<D>(id: string, a: int, b: int, exec: Executor<D>, toJson: D -> string)
    requires a != b
    requires forall k, t, m :: exec(k, t, m).Ok?
    ensures var (r, k, e) := Run(SourceAndDescribe(id, a, b), map[], [], exec);
      e == None && Elements(k) <= r.Keys && |Outputs(r, k, toJson)| == 2 &&
      Outputs(r, k, toJson)[0].toolId == a && Outputs(r, k, toJson)[1].toolId == b
  {
    var w := SourceAndDescribe(id, a, b);
    SourceAndDescribeSucceeds(id, a, b, exec);
    SourceAndDescribeOrder(id, a, b);
    assert Distinct(w.flow.tools);
    OutputsFollowOrder(w, exec, toJson);
  }
}
