/** The execution order of a stored workflow (`Workflow.tool_execution_order` and
    `_find_next_tools` in panderyx/workflows/models.py): the tools without inputs first, then
    layer after layer the tools that take an input from the previous layer and whose inputs have
    all been ordered. Tools are represented by their ids and the input relation by a map. */
module ExecutionOrder {
  import opened Common

  /** A workflow's tools in the order the database returns them, and each tool's input ids. */
  datatype Flow = Flow(tools: seq<int>, inputs: map<int, set<int>>)

  /** The input ids of tool `t` (none when the relation has no entry for it). */
  function InputsOf(f: Flow, t: int): set<int> {
    if t in f.inputs then f.inputs[t] else {}
  }

  /** `set(tool_qs)`. */
  function Members(f: Flow): set<int> {
    Elements(f.tools)
  }

  /** The message of the ValueError raised when no tool lacks inputs. */
  const NO_INPUT_FILES: string := "Workflow cannot be run without any input files."

  /** The elements of `s` that are in `keep`, in the order of `s`. */
  function Filter(s: seq<int>, keep: set<int>): (r: seq<int>)
    ensures forall x :: x in r <==> x in s && x in keep
    ensures Distinct(s) ==> Distinct(r)
    decreases |s|
  {
    if s == [] then []
    else (if s[0] in keep then [s[0]] else []) + Filter(s[1..], keep)
  }

  /** `list(tool_qs.filter(inputs=None))`: the tools without inputs, in database order. */
  function StartingTools(f: Flow): (r: seq<int>)
    ensures forall t :: t in r <==> t in f.tools && InputsOf(f, t) == {}
  {
    Filter(f.tools, set t | t in f.tools && InputsOf(f, t) == {})
  }

  /** Tool `t` is scheduled after `order`, whose last layer is `previous`: it is neither ordered
      nor in that layer, takes an input from that layer and has no input left unordered. */
  predicate Ready(f: Flow, previous: set<int>, order: seq<int>, t: int) {
    && t !in previous && t !in Elements(order)
    && InputsOf(f, t) * previous != {}
    && InputsOf(f, t) <= Elements(order)
  }

  /** The next layer `_find_next_tools` computes, in database order. */
  function NextBatch(f: Flow, previous: set<int>, order: seq<int>): (r: seq<int>)
    ensures forall t :: t in r <==> t in f.tools && Ready(f, previous, order, t)
  {
    Filter(f.tools, set t | t in f.tools && Ready(f, previous, order, t))
  }

  /** A non-empty layer orders at least one more tool of the workflow. */
  lemma BatchProgress(f: Flow, previous: set<int>, order: seq<int>)
    requires NextBatch(f, previous, order) != []
    ensures |Members(f) - Elements(order + NextBatch(f, previous, order))| < |Members(f) - Elements(order)|
  {
    var batch := NextBatch(f, previous, order);
    var t := batch[0];
    assert t in batch;
    ElementsAppend(order, batch);
    SmallerDifference(Members(f), Elements(order), Elements(batch), t);
  }

  /** `_find_next_tools(previous_tools, tool_order, tool_set)`: appends layers until none is
      left. Within a layer the tools follow database order; the set iteration order that
      decides it in the source plays no part in any property below. Every call orders at least
      one more member, so the recursion ends. */
  function FindNextTools(f: Flow, previous: set<int>, order: seq<int>): (r: seq<int>)
    ensures |order| <= |r| && r[..|order|] == order
    decreases |Members(f) - Elements(order)|
  {
    var batch := NextBatch(f, previous, order);
    if batch == [] then order
    else
      BatchProgress(f, previous, order);
      var r := FindNextTools(f, Elements(batch), order + batch);
      assert r[..|order|] == (order + batch)[..|order|];
      r
  }

  /** `tool_execution_order`: a ValueError exactly when every tool has an input; otherwise the
      order begins with exactly the tools without inputs. */
  function ToolExecutionOrder(f: Flow): (r: Result<seq<int>, string>)
    ensures r.Err? <==> forall t :: t in f.tools ==> InputsOf(f, t) != {}
    ensures r.Err? ==> r.error == NO_INPUT_FILES
    ensures r.Ok? ==> |StartingTools(f)| <= |r.value| && r.value[..|StartingTools(f)|] == StartingTools(f)
  {
    var starting := StartingTools(f);
    if starting == [] then
      assert forall t :: t in f.tools ==> t !in starting;
      Err(NO_INPUT_FILES)
    else
      assert starting[0] in starting;
      Ok(FindNextTools(f, Elements(starting), starting))
  }

  // ---------------------------------------------------------------------------------------
  // Inputs come first

  /** Every tool of `s` comes strictly after all of its inputs. */
  predicate InputsPrecede(f: Flow, s: seq<int>) {
    forall i :: 0 <= i < |s| ==> InputsOf(f, s[i]) <= Elements(s[..i])
  }

  lemma {:induction false} FindNextToolsPrecede(f: Flow, previous: set<int>, order: seq<int>)
    requires InputsPrecede(f, order)
    ensures InputsPrecede(f, FindNextTools(f, previous, order))
    decreases |Members(f) - Elements(order)|
  {
    var batch := NextBatch(f, previous, order);
    if batch != [] {
      var next := order + batch;
      forall i | 0 <= i < |next|
        ensures InputsOf(f, next[i]) <= Elements(next[..i])
      {
        if i < |order| {
          assert next[..i] == order[..i];
        } else {
          assert next[i] in batch;
          forall x | x in InputsOf(f, next[i])
            ensures x in Elements(next[..i])
          {
            var j :| 0 <= j < |order| && order[j] == x;
            assert next[..i][j] == x;
          }
        }
      }
      BatchProgress(f, previous, order);
      FindNextToolsPrecede(f, Elements(batch), next);
    }
  }

  /** Every tool in the execution order comes strictly after all of its inputs. */
  lemma OrderRespectsInputs(f: Flow)
    ensures ToolExecutionOrder(f).Ok? ==> InputsPrecede(f, ToolExecutionOrder(f).value)
  {
    var starting := StartingTools(f);
    if starting != [] {
      assert InputsPrecede(f, starting) by {
        forall i | 0 <= i < |starting|
          ensures InputsOf(f, starting[i]) == {}
        {
          assert starting[i] in starting;
        }
      }
      FindNextToolsPrecede(f, Elements(starting), starting);
    }
  }

  // ---------------------------------------------------------------------------------------
  // No duplicates, only members

  lemma {:induction false} FindNextToolsDistinct(f: Flow, previous: set<int>, order: seq<int>)
    requires Distinct(f.tools) && Distinct(order) && Elements(order) <= Members(f)
    ensures Distinct(FindNextTools(f, previous, order))
    ensures Elements(FindNextTools(f, previous, order)) <= Members(f)
    decreases |Members(f) - Elements(order)|
  {
    var batch := NextBatch(f, previous, order);
    if batch != [] {
      var next := order + batch;
      assert Distinct(next) by {
        forall i, j | 0 <= i < j < |next|
          ensures next[i] != next[j]
        {
          if j >= |order| && i < |order| {
            assert next[j] in batch && next[i] in order;
          }
        }
      }
      BatchProgress(f, previous, order);
      FindNextToolsDistinct(f, Elements(batch), next);
    }
  }

  /** With distinct tools, no tool is ordered twice and only the workflow's tools are ordered. */
  lemma OrderDistinct(f: Flow)
    requires Distinct(f.tools)
    ensures ToolExecutionOrder(f).Ok? ==>
              Distinct(ToolExecutionOrder(f).value) && Elements(ToolExecutionOrder(f).value) <= Members(f)
  {
    var starting := StartingTools(f);
    if starting != [] {
      FindNextToolsDistinct(f, Elements(starting), starting);
    }
  }

  // ---------------------------------------------------------------------------------------
  // What is left out

  /** While the layers are being built: every unordered tool whose inputs are all ordered (and
      that has some) takes an input from the previous layer, which is itself ordered. */
  ghost predicate Frontier(f: Flow, previous: set<int>, order: seq<int>) {
    && previous <= Elements(order)
    && forall t :: t in f.tools && t !in Elements(order) && InputsOf(f, t) != {} && InputsOf(f, t) <= Elements(order) ==>
         InputsOf(f, t) * previous != {}
  }

  /** Every tool whose inputs are all in `r` is in `r`: so a tool left out of `r` has an input
      left out of `r`. */
  ghost predicate InputClosed(f: Flow, r: seq<int>) {
    forall t :: t in f.tools && InputsOf(f, t) <= Elements(r) ==> t in Elements(r)
  }

  lemma FrontierStep(f: Flow, previous: set<int>, order: seq<int>)
    requires Frontier(f, previous, order)
    ensures Frontier(f, Elements(NextBatch(f, previous, order)), order + NextBatch(f, previous, order))
  {
    var batch := NextBatch(f, previous, order);
    var next := order + batch;
    ElementsAppend(order, batch);
    forall t | t in f.tools && t !in Elements(next) && InputsOf(f, t) != {} && InputsOf(f, t) <= Elements(next)
      ensures InputsOf(f, t) * Elements(batch) != {}
    {
      if InputsOf(f, t) * Elements(batch) == {} {
        assert t !in batch && t !in Elements(order);
        forall x | x in InputsOf(f, t)
          ensures x in Elements(order)
        {
          assert x !in InputsOf(f, t) * Elements(batch);
        }
      }
    }
  }

  lemma {:induction false} FindNextToolsLeavesOut(f: Flow, previous: set<int>, order: seq<int>)
    requires Frontier(f, previous, order) && Elements(StartingTools(f)) <= Elements(order)
    ensures InputClosed(f, FindNextTools(f, previous, order))
    decreases |Members(f) - Elements(order)|
  {
    var batch := NextBatch(f, previous, order);
    if batch == [] {
      forall t | t in f.tools && InputsOf(f, t) <= Elements(order)
        ensures t in Elements(order)
      {
        if InputsOf(f, t) == {} {
          assert t in Elements(StartingTools(f));
        } else {
          assert !Ready(f, previous, order, t);
        }
      }
    } else {
      FrontierStep(f, previous, order);
      ElementsAppend(order, batch);
      BatchProgress(f, previous, order);
      FindNextToolsLeavesOut(f, Elements(batch), order + batch);
    }
  }

  /** A tool whose inputs are all in the execution order is in it too: a tool missing from the
      order has an input that is missing. */
  lemma OmittedToolHasOmittedInput(f: Flow)
    ensures ToolExecutionOrder(f).Ok? ==> InputClosed(f, ToolExecutionOrder(f).value)
  {
    var starting := StartingTools(f);
    if starting != [] {
      FindNextToolsLeavesOut(f, Elements(starting), starting);
    }
  }

  /** A tool with an input missing from the execution order is missing too. */
  lemma DownstreamOfOmittedIsOmitted(f: Flow, t: int, x: int)
    requires x in InputsOf(f, t)
    ensures var r := ToolExecutionOrder(f);
      r.Ok? && x !in r.value ==> t !in r.value
  {
    OrderRespectsInputs(f);
    var r := ToolExecutionOrder(f);
    if r.Ok? && t in r.value {
      var i :| 0 <= i < |r.value| && r.value[i] == t;
      assert x in Elements(r.value[..i]);
    }
  }

  /** Every tool of `c` takes an input from `c`: for a finite `c`, a set that holds a cycle of
      the input relation together with the tools fed only from it. */
  predicate SelfFed(f: Flow, c: set<int>) {
    forall t :: t in c ==> InputsOf(f, t) * c != {}
  }

  /** In an order whose tools follow their inputs, the tool at position `i` is not in a
      self-fed set: it would need an input of the set at an earlier position, and so on down. */
  lemma {:induction false} NotSelfFedAt(f: Flow, s: seq<int>, c: set<int>, i: nat)
    requires InputsPrecede(f, s) && SelfFed(f, c) && i < |s|
    ensures s[i] !in c
    decreases i
  {
    if s[i] in c {
      NonEmpty(InputsOf(f, s[i]) * c);
      var x :| x in InputsOf(f, s[i]) * c;
      assert x in Elements(s[..i]);
      var j :| 0 <= j < i && s[..i][j] == x;
      NotSelfFedAt(f, s, c, j);
    }
  }

  /** No tool on a cycle of the input relation, nor any tool fed only by such a cycle, is ever
      ordered. */
  lemma SelfFedIsOmitted(f: Flow, c: set<int>)
    requires SelfFed(f, c)
    ensures var r := ToolExecutionOrder(f);
      r.Ok? ==> forall i :: 0 <= i < |r.value| ==> r.value[i] !in c
  {
    var r := ToolExecutionOrder(f);
    if r.Ok? {
      OrderRespectsInputs(f);
      forall i | 0 <= i < |r.value|
        ensures r.value[i] !in c
      {
        NotSelfFedAt(f, r.value, c, i);
      }
    }
  }

  // ---------------------------------------------------------------------------------------
  // Acyclic workflows are scheduled completely

  /** `rank` witnesses that the input relation among the workflow's tools is acyclic: every
      input of a tool is a tool of the workflow with a smaller rank. */
  predicate Ranked(f: Flow, rank: map<int, nat>) {
    forall t :: t in f.tools ==>
      t in rank && forall x :: x in InputsOf(f, t) ==> x in f.tools && x in rank && rank[x] < rank[t]
  }

  lemma {:induction false} SourceBelow(f: Flow, rank: map<int, nat>, t: int)
    requires Ranked(f, rank) && t in f.tools
    ensures exists s :: s in f.tools && InputsOf(f, s) == {}
    decreases rank[t]
  {
    if InputsOf(f, t) != {} {
      NonEmpty(InputsOf(f, t));
      var x :| x in InputsOf(f, t);
      SourceBelow(f, rank, x);
    }
  }

  lemma {:induction false} OrderedByRank(f: Flow, rank: map<int, nat>, r: seq<int>, t: int)
    requires Ranked(f, rank) && t in f.tools
    requires InputClosed(f, r)
    ensures t in Elements(r)
    decreases rank[t]
  {
    forall x | x in InputsOf(f, t)
      ensures x in Elements(r)
    {
      OrderedByRank(f, rank, r, x);
    }
  }

  /** A non-empty acyclic workflow has an execution order, and it contains every tool. */
  lemma AcyclicIsComplete(f: Flow, rank: map<int, nat>)
    requires Ranked(f, rank) && f.tools != []
    ensures ToolExecutionOrder(f).Ok?
    ensures Elements(ToolExecutionOrder(f).value) >= Members(f)
  {
    SourceBelow(f, rank, f.tools[0]);
    OmittedToolHasOmittedInput(f);
    var r := ToolExecutionOrder(f).value;
    forall t | t in Members(f)
      ensures t in r
    {
      OrderedByRank(f, rank, r, t);
    }
  }

  // ---------------------------------------------------------------------------------------
  // The orders expected by the test suite

  /** tool_1 -> tool_2 -> tool_3, with tool_3 created before tool_2. */
  const LINEAR: Flow := Flow([1, 3, 2], map[1 := {}, 3 := {2}, 2 := {1}])

  lemma LinearFirstLayer()
    ensures StartingTools(LINEAR) == [1]
  {
    var f := LINEAR;
    assert InputsOf(f, 1) == {} && InputsOf(f, 2) == {1} && InputsOf(f, 3) == {2};
    var k0 := set t | t in f.tools && InputsOf(f, t) == {};
    assert 1 in k0 && 3 !in k0 && 2 !in k0;
    assert StartingTools(f) == [1] by {
      assert Filter([2], k0) == [] + Filter([], k0);
      assert Filter([3, 2], k0) == [] + Filter([2], k0);
      assert Filter([1, 3, 2], k0) == [1] + Filter([3, 2], k0);
    }
  }

  lemma LinearSecondLayer()
    ensures NextBatch(LINEAR, {1}, [1]) == [2]
  {
    var f := LINEAR;
    assert InputsOf(f, 1) == {} && InputsOf(f, 2) == {1} && InputsOf(f, 3) == {2};
    var k1 := set t | t in f.tools && Ready(f, {1}, [1], t);
    assert Elements([1]) == {1};
    assert 1 in InputsOf(f, 2) * {1};
    assert Ready(f, {1}, [1], 2);
    assert 1 !in k1 && 3 !in k1 && 2 in k1;
    assert NextBatch(f, {1}, [1]) == [2] by {
      assert Filter([2], k1) == [2] + Filter([], k1);
      assert Filter([3, 2], k1) == [] + Filter([2], k1);
      assert Filter([1, 3, 2], k1) == [] + Filter([3, 2], k1);
    }
  }

  lemma LinearThirdLayer()
    ensures NextBatch(LINEAR, {2}, [1, 2]) == [3]
  {
    var f := LINEAR;
    assert InputsOf(f, 1) == {} && InputsOf(f, 2) == {1} && InputsOf(f, 3) == {2};
    var k2 := set t | t in f.tools && Ready(f, {2}, [1, 2], t);
    assert Elements([1, 2]) == {1, 2};
    assert 2 in InputsOf(f, 3) * {2};
    assert Ready(f, {2}, [1, 2], 3);
    assert 1 !in k2 && 3 in k2 && 2 !in k2;
    assert NextBatch(f, {2}, [1, 2]) == [3] by {
      assert Filter([2], k2) == [] + Filter([], k2);
      assert Filter([3, 2], k2) == [3] + Filter([2], k2);
      assert Filter([1, 3, 2], k2) == [] + Filter([3, 2], k2);
    }
  }

  lemma LinearNoFourthLayer()
    ensures NextBatch(LINEAR, {3}, [1, 2, 3]) == []
  {
    var f := LINEAR;
    assert InputsOf(f, 1) == {} && InputsOf(f, 2) == {1} && InputsOf(f, 3) == {2};
    var k3 := set t | t in f.tools && Ready(f, {3}, [1, 2, 3], t);
    assert Elements([1, 2, 3]) == {1, 2, 3};
    assert 1 !in k3 && 3 !in k3 && 2 !in k3;
    assert NextBatch(f, {3}, [1, 2, 3]) == [] by {
      assert Filter([2], k3) == [] + Filter([], k3);
      assert Filter([3, 2], k3) == [] + Filter([2], k3);
      assert Filter([1, 3, 2], k3) == [] + Filter([3, 2], k3);
    }
  }

  lemma LinearLastStep()
    ensures FindNextTools(LINEAR, {2}, [1, 2]) == [1, 2, 3]
  {
    assert FindNextTools(LINEAR, {2}, [1, 2]) == FindNextTools(LINEAR, {3}, [1, 2, 3]) by {
      LinearThirdLayer();
      assert Elements([3]) == {3};
      assert [1, 2] + [3] == [1, 2, 3];
    }
    assert FindNextTools(LINEAR, {3}, [1, 2, 3]) == [1, 2, 3] by { LinearNoFourthLayer(); }
  }

  lemma LinearLayering()
    ensures FindNextTools(LINEAR, {1}, [1]) == [1, 2, 3]
  {
    assert Elements([2]) == {2};
    assert [1] + [2] == [1, 2];
    LinearSecondLayer();
    LinearLastStep();
  }

  /** The order the test suite expects for the linear workflow. */
  lemma LinearSequence()
    ensures ToolExecutionOrder(LINEAR) == Ok([1, 2, 3])
  {
    assert Elements([1]) == {1};
    LinearFirstLayer();
    LinearLayering();
  }

  /** tool_1 -> tool_2 -> tool_3 -> tool_1: no tool without inputs. */
  lemma WithoutStartingNodes()
    ensures ToolExecutionOrder(Flow([1, 2, 3], map[1 := {3}, 2 := {1}, 3 := {2}])) == Err(NO_INPUT_FILES)
  {
  }
}
