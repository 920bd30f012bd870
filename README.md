# panderyx workflows in Dafny

panderyx lets a user build a data-processing workflow out of tools. Input tools load a
dataset, generic tools transform or describe it, and each tool reads the results of the
tools linked to it as inputs. This project models three parts of it:

- **The in-memory workflow editor** (`workflows/workflow.py`, `tools/tools.py`). A workflow
  owns a permanent root tool with id 0. The editor inserts tools of the three insertable
  classes and links and unlinks them. Every tool has a per-class input capacity: adding an
  input beyond it records a "skipped input" error instead. Every link is recorded twice, as
  an input of the consumer and as an output of the producer. Removing a tool unlinks it
  everywhere. Tool ids are never reused. Coordinates must fall on the canvas. Only input
  tools accept a configuration.
- **The execution order of a stored workflow** (`tool_execution_order` and
  `_find_next_tools` in `panderyx/workflows/models.py`). Tools without inputs come first.
  After them comes, layer by layer, every tool that takes an input from the previous layer
  and whose inputs are all ordered already.
- **Running a stored workflow** (`WorkflowService` in `panderyx/workflows/services.py`) and
  the tool-type registry (`panderyx/workflows/tools/mappings.py`). Tools run in execution
  order. Each tool runs on the stored results of its inputs, using the executor its
  configured type selects. The outputs are listed in the order the results were stored.

The model has one module per concern:

- `common.dfy` (`Common`): Option and Result, and the modelling of `list(set(ids))`.
- `registry.dfy` (`ToolMapping`): the registry.
- `tools.dfy` (`Tools`): a tool's state as a value (`ToolState`), pure transitions on it, and
  the mutable class `Tool`, whose methods are proved to perform those transitions.
- `graph.dfy` (`WorkflowSpec`): the editor as functions on a map from id to `ToolState`. It
  defines the graph invariant `ValidGraph` and proves every operation preserves it, with
  each operation's effect and the exceptions it raises. The two source defects listed under
  Findings are also modelled here as written, next to their corrected definitions.
- `workflow.dfy` (`Workflows`): the mutable class `Workflow`, which holds a map of `Tool`
  objects. Each method is proved to leave `Snapshot()` equal to what the matching
  `WorkflowSpec` function computes from the snapshot before the call, and to keep `Valid()`.
- `ordering.dfy` (`ExecutionOrder`): the execution order as recursive functions, with its
  properties.
- `pipeline.dfy` (`WorkflowServices`): the class `WorkflowService`. Its run loop is proved
  against the function `Run`, and the properties of the run are proved about `Run`.

Where the source chooses an order the language does not fix, the model makes a definite
choice; the choices are listed under "Left out".

## Model

| member | source | states |
|---|---|---|
| ToolMapping.Lookup | panderyx/workflows/tools/mappings.py:11-23 | A lookup by name succeeds exactly for "input_url" and "describe_data", and yields the kind with that type name; any other name is a KeyError |
| ToolMapping.LookupTypeName | panderyx/workflows/tools/mappings.py:11-23 | Looking up a kind's own type name gives back that kind |
| ToolMapping.CapacityAgrees | panderyx/workflows/tools/mappings.py:11-23 | Input URL tools take 0 inputs and describe-data tools take 1; the table, the record defaults (dtos/input_tools.py:8, dtos/preview_tools.py:7) and the serializer bounds (serializers/input_tools.py:6, serializers/preview_tools.py:6) agree |
| Tools.ClassTable | tools/tools.py:183-207 | Capacities are 1 for the base class, 0 for root and input tools, 2 for generic and 10 for large generic tools; only the root class is root and only input tools have a configuration class |
| Tools.NewTool | tools/tools.py:31-43 | A new tool has the given id and class, no inputs, outputs, configuration, coordinates or errors, and is within its capacity |
| Tools.WithInput | tools/tools.py:45-59 | Below capacity the id is added and the errors are unchanged. At capacity the inputs are unchanged and one skipped-input message naming the id and the capacity is appended. Nothing else changes and capacity is preserved |
| Tools.WithoutInput | tools/tools.py:61-71 | The id is no longer an input and all other inputs stay; removing an absent id changes nothing |
| Tools.WithOutput | tools/tools.py:73-79 | The outputs gain exactly the id and nothing else changes |
| Tools.WithoutOutput | tools/tools.py:81-91 | The id is no longer an output and all other outputs stay; removing an absent id changes nothing |
| Tools.CleanedErrors | tools/tools.py:93-95 | Both error entries are emptied and nothing else changes |
| Tools.Placed | tools/tools.py:127-157 | Coordinates are stored exactly when both are integers on the canvas [0, MAX_CANVAS_SIZE]. A TypeError is raised exactly when they cannot be converted to integers, and otherwise a ValueError naming the canvas size. A rejected call changes nothing |
| Tools.Configured | tools/tools.py:164-180 | ConfigClassIsNotDefined is raised exactly for tools without a configuration class, and then nothing changes. Otherwise valid data becomes the configuration and invalid data puts the validation errors under "config" |
| Tools.InputMessagesOnlyGrow | tools/tools.py:45-91 | The error messages of a tool only grow, by at most one message per add_input, and linking outputs or removing inputs never touches them |
| Tools.Tool.constructor | tools/tools.py:31-43 | The object holds the state of a new tool of that id and class |
| Tools.Tool.NumberOfInputs | tools/tools.py:112-115 | The number of input ids the tool holds |
| Tools.Tool.AddInput | tools/tools.py:45-59 | The new state is WithInput of the old one; the capacity invariant is kept |
| Tools.Tool.RemoveInput | tools/tools.py:61-71 | The new state is WithoutInput of the old one |
| Tools.Tool.AddOutput | tools/tools.py:73-79 | The new state is WithOutput of the old one |
| Tools.Tool.RemoveOutput | tools/tools.py:81-91 | The new state is WithoutOutput of the old one |
| Tools.Tool.CleanErrors | tools/tools.py:93-95 | The new state is CleanedErrors of the old one |
| Tools.Tool.SetCoordinates | tools/tools.py:127-157 | The new state and the exception raised are those of Placed |
| Tools.Tool.SetConfig | tools/tools.py:164-180 | The new state and the exception raised are those of Configured |
| WorkflowSpec.ToolChoice | workflows/workflow.py:19-23 | Exactly "generic", "large_generic" and "input" name an insertable class, and none of them is the root class |
| WorkflowSpec.RootIsNotAChoice | workflows/workflow.py:19-23 | The root class cannot be inserted by name |
| WorkflowSpec.NewWorkflow | workflows/workflow.py:25-33 | A new workflow holds only a fresh root tool with id 0, and satisfies the graph invariant |
| WorkflowSpec.NewWorkflowIsEmpty | workflows/workflow.py:268-269 | The length of a new workflow is 0: the root is not counted |
| WorkflowSpec.Size | workflows/workflow.py:268-269 | The length is the number of tools other than the root |
| WorkflowSpec.NextId | workflows/workflow.py:257-263 | The next id is the largest used id plus one |
| WorkflowSpec.NextIdIsFresh | workflows/workflow.py:257-263 | The next id is unused and above every used id, so an id is never handed out twice |
| WorkflowSpec.CleanToolIds | workflows/workflow.py:224-247 | ToolDoesNotExist is raised exactly when some listed id is not a tool of the workflow |
| WorkflowSpec.AddInputStep | workflows/workflow.py:133-135 | One step keeps the set of tools and the target's class; what it does to edges is FillStep and AddInputsEffect |
| WorkflowSpec.AddInputs | workflows/workflow.py:133-135 | The loop keeps the set of tools and the target's class; its effect on edges is AddInputsEffect |
| WorkflowSpec.AddToolInput | workflows/workflow.py:117-137 | No error exactly when the tool and every input id exist; on error nothing changes and ToolDoesNotExist is raised |
| WorkflowSpec.RemoveInputStep | workflows/workflow.py:155-157 | One step keeps the set of tools |
| WorkflowSpec.RemoveInputs | workflows/workflow.py:155-157 | The loop keeps the set of tools; its effect on edges is RemoveInputsEffect |
| WorkflowSpec.RemoveToolInput | workflows/workflow.py:139-159 | No error exactly when the tool and every input id exist; on error nothing changes and ToolDoesNotExist is raised |
| WorkflowSpec.Detach | workflows/workflow.py:104-115 | Removes exactly that tool from the set of tools; the invariant it keeps is DetachValid |
| WorkflowSpec.RemoveEach | workflows/workflow.py:100-115 | Never adds a tool and only ever raises ToolDoesNotExist or RootCannotBeDeleted; its effect is RemoveEachEffect |
| WorkflowSpec.RemoveTool | workflows/workflow.py:85-115 | An absent id raises ToolDoesNotExist before any change; it never adds a tool and raises only ToolDoesNotExist or RootCannotBeDeleted |
| WorkflowSpec.AddToolInputValid | workflows/workflow.py:117-137 | add_tool_input fails exactly when the tool or one of the inputs does not exist, and a failing call changes nothing; the graph invariant is kept |
| WorkflowSpec.AddInputsValid | workflows/workflow.py:130-135 | Linking a list of inputs keeps the graph invariant |
| WorkflowSpec.AddInputsEffect | workflows/workflow.py:130-135 | The tool gains only inputs from the list and loses none, stays within capacity, and only its inputs and errors change. Each producer that was really added gains the tool as an output, and no other tool changes |
| WorkflowSpec.AddInputsBelowCapacity | workflows/tests/test_workflows.py:155-167 | When the inputs fit the capacity, all of them are added and no error is recorded |
| WorkflowSpec.AddInputsFillsUp | workflows/tests/test_workflows.py:106-115 | Adding new distinct inputs fills the tool up to its capacity and no further. Every input beyond the capacity adds one skipped-input message |
| WorkflowSpec.FillStep | tools/tools.py:54-59 | One new input either adds one input or adds one error message, depending on whether the tool is full |
| WorkflowSpec.RemoveInputsValid | workflows/workflow.py:152-157 | Unlinking a list of inputs keeps the graph invariant |
| WorkflowSpec.RemoveInputsEffect | workflows/workflow.py:152-157 | The tool loses exactly the listed inputs. Each listed producer loses the tool as an output, and nothing else changes |
| WorkflowSpec.DetachValid | workflows/workflow.py:104-115 | Removing a non-root tool keeps the graph invariant and leaves no tool referring to it. Every other tool loses exactly that id from its inputs and outputs, and nothing else about it changes |
| WorkflowSpec.RemoveToolEffect | workflows/workflow.py:85-115 | ToolDoesNotExist is raised exactly when some id does not exist, and then nothing changes. Without an exception, exactly the listed tools are gone and nothing refers to them. The only other exception is RootCannotBeDeleted, and the graph invariant holds either way |
| WorkflowSpec.RemoveEachEffect | workflows/workflow.py:100-115 | The loop raises RootCannotBeDeleted exactly when the root is listed, and the root always survives. Otherwise it removes exactly the listed tools |
| WorkflowSpec.RemoveEachPartial | workflows/workflow.py:100-103 | When the root is listed, the tools listed before it are already removed when RootCannotBeDeleted is raised, and every other tool is still present |
| WorkflowSpec.RemoveEachUnreferenced | workflows/workflow.py:100-115 | After a removal that raised nothing, no remaining tool refers to a removed one |
| WorkflowSpec.RemoveEachValid | workflows/workflow.py:100-115 | The removal loop keeps the graph invariant, including when it stops at the root |
| WorkflowSpec.SetToolCoordinates | workflows/workflow.py:176-199 | An unknown id raises ToolDoesNotExist and changes nothing. Missing coordinates default to (0, 0). Integer coordinates on the canvas are stored with no error; a non-integer raises the type error and an off-canvas value the value error with the bound, and then nothing changes. Only that tool's coordinates can change |
| WorkflowSpec.SetToolConfig | workflows/workflow.py:161-174 | An unknown id raises ToolDoesNotExist. A tool without a configuration class raises ConfigClassIsNotDefined and changes nothing. Accepted data is stored as the configuration; rejected data leaves the configuration and records the validation errors. Neither raises, and nothing else changes |
| WorkflowSpec.SettersValid | workflows/workflow.py:161-199 | Setting coordinates or a configuration keeps the graph invariant |
| WorkflowSpec.EdgesKeptValid | workflows/workflow.py:161-199 | Replacing a tool's state without touching its id, class or links keeps the graph invariant |
| WorkflowSpec.Registered | workflows/workflow.py:66-70 | The new id joins the used ids and the tools as a fresh tool of the class; every other tool is unchanged |
| WorkflowSpec.InsertTool | workflows/workflow.py:35-83 | ToolNotAvailable exactly for an unknown choice, which changes nothing; otherwise the new id joins both the used ids and the tools |
| WorkflowSpec.InsertEdges | workflows/workflow.py:72-81 | Keeps the set of tools; an absent input id raises ToolDoesNotExist with nothing changed; otherwise it raises only ToolDoesNotExist or a setter error |
| WorkflowSpec.AddAsInputOf | workflows/workflow.py:75-78 | Keeps the set of tools; its effect is AddAsInputOfEffect |
| WorkflowSpec.AddAsInputOfEffect | workflows/workflow.py:75-78 | Each output target becomes the target with the new tool offered as an input, the new tool lists exactly the targets that took it as outputs, and no other tool changes |
| WorkflowSpec.AddAsInputOfOthers | workflows/workflow.py:75-78 | Each tool other than the new one is the target offered the new tool when it is listed, and unchanged otherwise |
| WorkflowSpec.AddAsInputOfNewTool | workflows/workflow.py:75-78 | The new tool gains as outputs exactly the listed targets that took it as an input, and nothing else of it changes |
| WorkflowSpec.TargetStep | tools/tools.py:45-59 | One output iteration offers the new tool to the target, records the target as an output of the new tool exactly when the target took it, and changes no other tool |
| WorkflowSpec.IdsGiven | workflows/workflow.py:72-78 | `None` ids are treated as no ids |
| WorkflowSpec.InsertEdgesOutputsFail | workflows/workflow.py:72-78 | An absent output id raises ToolDoesNotExist after the input edges are made and before any output edge |
| WorkflowSpec.InsertEdgesSucceeds | workflows/workflow.py:72-81 | With every id present, the input edges, then the output edges, then the coordinates are applied in that order |
| WorkflowSpec.InsertEdgesOutcome | workflows/workflow.py:72-81 | On success the new tool's inputs are those the input loop gave it, each output target has been offered the new tool, the new tool's outputs are exactly the targets that took it, other tools are as after the input loop, and coordinates are placed as the setter places them with its error |
| WorkflowSpec.InsertToolOutcome | workflows/workflow.py:35-83 | After registration, an absent input id leaves the new tool with no edges and raises ToolDoesNotExist; an absent output id leaves only the input edges; otherwise the result is that of InsertEdges |
| WorkflowSpec.RegisteredValid | workflows/workflow.py:66-70 | A new tool of an insertable class gets the next id. It is added to the tools and the used ids, and the graph invariant is kept |
| WorkflowSpec.InsertToolEffect | workflows/workflow.py:35-83 | ToolNotAvailable is raised exactly for an unknown choice, and then nothing changes. Otherwise a tool of the chosen class is added under a fresh id, which is recorded as used even if a later step raises. The graph invariant is kept |
| WorkflowSpec.InsertEdgesEffect | workflows/workflow.py:72-81 | Linking the new tool's inputs and outputs and placing it keeps the graph invariant and the set of tools. It never raises ToolNotAvailable |
| WorkflowSpec.AddAsInputOfValid | workflows/workflow.py:75-78 | Making the new tool an input of each listed output keeps the graph invariant |
| WorkflowSpec.AddAsInputOfClasses | workflows/workflow.py:75-78 | Linking outputs does not change the new tool's class |
| WorkflowSpec.AddInputStepAsWrittenMirrorsInputs | workflows/workflow.py:133-135 | One as-written step keeps ids, capacities, closure and every recorded input mirrored as an output |
| WorkflowSpec.AddInputStepAsWritten | workflows/workflow.py:133-135 | One as-written step keeps the set of tools |
| WorkflowSpec.AddInputsAsWritten | workflows/workflow.py:133-135 | The as-written loop keeps the set of tools |
| WorkflowSpec.AddToolInputAsWritten | workflows/workflow.py:117-137 | As written, no error exactly when the tool and every input id exist; on error nothing changes |
| WorkflowSpec.AddToolInputAsWrittenMirrorsInputs | workflows/workflow.py:117-137 | The whole as-written call keeps ids, closure and every recorded input mirrored as an output |
| WorkflowSpec.SkippedInputLeavesDanglingOutput | workflows/workflow.py:133-135 | As written, `add_tool_input(1, [2])` on input tools 1 and 2 (capacity 0) records 1 as an output of 2 although 2 was skipped. Removing tool 1 then leaves a dangling output. The corrected step only records the skipped-input message |
| WorkflowSpec.RemovingLinkedToolRaisesAsWritten | workflows/workflow.py:106-113 | As written, removing a non-root tool raises CPython's "set changed size during iteration" exactly when the tool has an input or an output, and the tool stays. A tool without links is removed as the corrected model removes it |
| WorkflowSpec.RemoveOneAsWrittenOutcome | workflows/workflow.py:106-115 | The as-written removal of one tool raises exactly when the tool is linked, and otherwise gives the corrected result |
| WorkflowSpec.RemoveOneAsWritten | workflows/workflow.py:106-115 | Raises exactly when the tool is linked; then the tools stay, otherwise exactly that tool is removed |
| WorkflowSpec.RemoveSingle | workflows/workflow.py:100-115 | Removing one non-root tool raises nothing, and leaves the tool gone and unreferenced |
| Workflows.CleanDedup | workflows/workflow.py:241-245 | Checking the de-duplicated ids is the same as checking the ids as given |
| Workflows.Workflow.constructor | workflows/workflow.py:25-33 | A new workflow holds exactly the fresh root tool with id 0, and id 0 is marked as used |
| Workflows.Workflow.Len | workflows/workflow.py:268-269 | The number of tools other than the root |
| Workflows.Workflow.GetToolById | workflows/workflow.py:205-222 | Gives the tool stored under the id, and ToolDoesNotExist exactly when there is none |
| Workflows.Workflow.CleanToolIds | workflows/workflow.py:224-247 | Succeeds exactly when every id exists, with each id once; otherwise raises ToolDoesNotExist |
| Workflows.Workflow.GetNextToolId | workflows/workflow.py:257-263 | Computes, with a loop over the used ids, their maximum plus one |
| Workflows.Workflow.AddToolId | workflows/workflow.py:249-255 | The used ids gain exactly the id and the tools are unchanged |
| Workflows.Workflow.LinkStep | workflows/workflow.py:133-135 | One pass of the loop body performs the corrected AddInputStep on the tools |
| Workflows.Workflow.UnlinkStep | workflows/workflow.py:155-157 | One pass of the loop body performs RemoveInputStep on the tools |
| Workflows.Workflow.LinkAll | workflows/workflow.py:133-135 | The loop performs AddInputs on the tools |
| Workflows.Workflow.UnlinkAll | workflows/workflow.py:155-157 | The loop performs RemoveInputs on the tools |
| Workflows.Workflow.AddToolInput | workflows/workflow.py:117-137 | Performs WorkflowSpec.AddToolInput, raising what it raises, keeps the invariant and returns the target tool |
| Workflows.Workflow.RemoveToolInput | workflows/workflow.py:139-159 | Performs WorkflowSpec.RemoveToolInput, raising what it raises, keeps the invariant and returns the target tool |
| Workflows.Workflow.UnlinkOutputs | workflows/workflow.py:106-108 | Every consumer of the tool loses it as an input, and every other tool is unchanged |
| Workflows.Workflow.UnlinkInputs | workflows/workflow.py:111-113 | Every producer of the tool loses it as an output, and every other tool is unchanged |
| Workflows.Workflow.Unlink | workflows/workflow.py:104-113 | Keeps the set of tools, and leaves every other tool as the corrected removal of that tool leaves it |
| Workflows.Workflow.Delete | workflows/workflow.py:115 | The tool's entry is dropped from the map and nothing else changes |
| Workflows.Workflow.DetachTool | workflows/workflow.py:104-115 | Removing one non-root tool performs Detach and keeps the invariant and the used ids |
| Workflows.Workflow.RemoveEachTool | workflows/workflow.py:100-115 | The loop performs RemoveEach, raising what it raises |
| Workflows.Workflow.RemoveTool | workflows/workflow.py:85-115 | Performs the corrected WorkflowSpec.RemoveTool, raising what it raises; the used ids are kept |
| Workflows.Workflow.Register | workflows/workflow.py:69-70 | Stores the tool under its id and marks the id as used |
| Workflows.Workflow.RegisterNew | workflows/workflow.py:66-70 | Creates a tool of the class under the next id and performs Registered |
| Workflows.Workflow.AddAsInputOfAll | workflows/workflow.py:77-78 | Performs AddAsInputOf and keeps the invariant |
| Workflows.Workflow.AddAsInputOfCleaned | workflows/workflow.py:75-78 | Raises ToolDoesNotExist exactly when an output id is unknown, and then changes nothing; otherwise performs AddAsInputOf on the de-duplicated ids |
| Workflows.Workflow.InsertEdges | workflows/workflow.py:72-81 | Performs WorkflowSpec.InsertEdges, raising what it raises |
| Workflows.Workflow.InsertTool | workflows/workflow.py:35-83 | Performs WorkflowSpec.InsertTool on the tools and used ids, and returns a fresh tool stored under the next id |
| Workflows.Workflow.SetToolCoordinates | workflows/workflow.py:176-199 | Performs WorkflowSpec.SetToolCoordinates and returns the tool |
| Workflows.Workflow.SetToolConfig | workflows/workflow.py:161-174 | Performs WorkflowSpec.SetToolConfig and returns the tool |
| ExecutionOrder.StartingTools | panderyx/workflows/models.py:41 | Exactly the tools without inputs |
| ExecutionOrder.NextBatch | panderyx/workflows/models.py:65-73 | Exactly the tools not yet ordered, outside the previous layer, with an input in that layer and all inputs already ordered |
| ExecutionOrder.BatchProgress | panderyx/workflows/models.py:75-82 | A non-empty layer orders at least one more tool, so the recursion terminates |
| ExecutionOrder.FindNextTools | panderyx/workflows/models.py:48-82 | The order built so far is kept as a prefix and only extended |
| ExecutionOrder.ToolExecutionOrder | panderyx/workflows/models.py:30-46 | ValueError "Workflow cannot be run without any input files." is raised exactly when every tool has an input. Otherwise the order starts with the tools without inputs |
| ExecutionOrder.OrderRespectsInputs | panderyx/workflows/models.py:30-82 | Every input of an ordered tool comes before it in the order |
| ExecutionOrder.OrderDistinct | panderyx/workflows/models.py:30-82 | No tool is ordered twice, and only tools of the workflow are ordered |
| ExecutionOrder.OmittedToolHasOmittedInput | panderyx/workflows/models.py:30-82 | Every ordered tool's inputs are ordered: a tool is left out only if one of its inputs is |
| ExecutionOrder.DownstreamOfOmittedIsOmitted | panderyx/workflows/models.py:30-82 | A tool that takes an input from a left-out tool is left out too |
| ExecutionOrder.SelfFedIsOmitted | panderyx/workflows/models.py:30-82 | Tools on a cycle (a set each of whose members has an input in the set) are never ordered |
| ExecutionOrder.AcyclicIsComplete | panderyx/workflows/models.py:30-82 | In a workflow without cycles every tool is ordered |
| ExecutionOrder.LinearSequence | panderyx/workflows/tools/test/test_models.py:13-24 | The linear chain 1 -> 2 -> 3 is ordered [1, 2, 3] |
| ExecutionOrder.LinearLayering | panderyx/workflows/tools/test/test_models.py:13-24 | Starting from layer [1], the chain is ordered [1, 2, 3] |
| ExecutionOrder.WithoutStartingNodes | panderyx/workflows/tools/test/test_models.py:129-144 | A three-tool cycle raises ValueError "Workflow cannot be run without any input files." |
| WorkflowServices.RunTool | panderyx/workflows/services.py:27-36 | A tool fails with a missing result exactly when one of its inputs has no stored result. With all results present, UnknownToolType is exactly a missing or unregistered type; otherwise the executor the registry gives for the type runs on the map from each input id to its stored result, its value is the result and its error becomes ToolFailed for that tool |
| WorkflowServices.InputResults | panderyx/workflows/services.py:30-32 | The map has exactly the tool's input ids as keys, each with its stored result |
| WorkflowServices.StoreKey | panderyx/workflows/services.py:35-36 | The key list grows by at most the new id at the end; it stays the list of stored ids and stays duplicate-free |
| WorkflowServices.RunFrom | panderyx/workflows/services.py:23-36 | Only tools of the order gain results, and a failure is a tool error of a tool in the order |
| WorkflowServices.Run | panderyx/workflows/services.py:13-36 | The no-inputs service error exactly when there is no execution order, and then nothing is stored; otherwise only tools of the order gain results |
| WorkflowServices.Outputs | panderyx/workflows/services.py:38-44 | One output per stored key, in key order, pairing the id with the converted result |
| WorkflowServices.WorkflowService.constructor | panderyx/workflows/services.py:9-11 | The service holds the workflow and no results |
| WorkflowServices.WorkflowService.RunWorkflow | panderyx/workflows/services.py:13-36 | The results, their key order and the exception raised are those of Run |
| WorkflowServices.WorkflowService.RunOneTool | panderyx/workflows/services.py:27-36 | A failing tool stores nothing and raises its error. A succeeding tool stores its result under its id, and the key is appended only if the id is new |
| WorkflowServices.WorkflowService.GetOutputs | panderyx/workflows/services.py:38-44 | One output per stored result, in insertion order, with the tool id and the converted result |
| WorkflowServices.RunKeepsKeyOrder | panderyx/workflows/services.py:23-36 | The key order lists every stored result exactly once |
| WorkflowServices.NoOrderNoRun | panderyx/workflows/services.py:14-21 | When every tool has an input, the run raises the workflow_no_inputs WorkflowServiceException and stores nothing |
| WorkflowServices.StopsAtFirstError | panderyx/workflows/services.py:23-36 | A failed run stops at the first failing tool, with exactly the results of the tools before it |
| WorkflowServices.NoMissingResult | panderyx/workflows/services.py:30-32 | Since inputs are always ordered first, a run never fails for lack of an input's result |
| WorkflowServices.RunFromEmpty | panderyx/workflows/services.py:13-36 | A successful run from no results stores exactly the ordered tools, in execution order, each with the result of its executor on its inputs' results |
| WorkflowServices.RunSucceeds | panderyx/workflows/services.py:13-36 | When every tool has a registered type and the executors do not fail, a workflow with an order runs without error |
| WorkflowServices.OutputsFollowOrder | panderyx/workflows/services.py:38-44 | After a successful run from nothing, the outputs list the tools in execution order |
| WorkflowServices.SourceAndDescribeOutputs | panderyx/workflows/test/test_views.py:207-222 | An input-url tool feeding a describe-data tool runs without error and yields two outputs, source first |

## Left out

- The web layer, the ORM, serializers, permissions and views are not modelled. The stored
  workflow is a value (`StoredWorkflow`): its tools in database order, their inputs and their
  configured `type`.
- Dataframe processing is not modelled. The executors (`ToolMapping[...]["service"]` and
  `run_tool`) are a parameter `exec`, and `to_json` is a parameter `toJson`. An executor's
  failure, including the "missing input" error the describe-data service raises, is
  `ToolFailed`.
- Pydantic validation of a tool configuration is a parameter `validate`. The JSON of its
  errors is an opaque string.
- Common.Dedup: `list(set(ids))` in `_clean_tool_ids` has an order that CPython does not
  specify. The model keeps each id at its first occurrence. The lemmas about results that
  depend on order are stated for that choice. CPython in practice iterates a set of small
  non-negative ints in ascending order, so `remove_tool([3, 0])` raises RootCannotBeDeleted
  before it deletes tool 3, while the model deletes tool 3 first (`RemoveEachPartial`).
- WorkflowSpec.InsertEdgesOutcome: says nothing about output ids that repeat or that name the
  new tool. The ids are de-duplicated before the loop, so repetition does not arise. The new
  tool's own id can be passed, because it is registered before the ids are cleaned; that
  self-link is covered only by InsertEdges and InsertEdgesEffect (set of tools, invariant).
- ExecutionOrder.NextBatch: within a layer, the source iterates a Python set, so its order
  is unspecified. The model takes the layer in database order.
- ExecutionOrder.AcyclicIsComplete requires a rank function as the witness of acyclicity.
  The grouping of tools into layers (longest-path depth) is stated through `NextBatch` and
  the scenario lemmas only, not as a general theorem.
- WorkflowServices.RunFromEmpty, WorkflowServices.RunSucceeds and
  WorkflowServices.OutputsFollowOrder assume the tool list holds each tool once. A queryset
  of a workflow's tools does.
- WorkflowServices.RunTool: a missing result carries only the id of the tool being run, not
  the id of the missing input. A missing `type` key and an unknown type are one error,
  `UnknownToolType`.
- `MAX_CANVAS_SIZE` is only known to be positive. workflows/workflow_constants.py is not
  part of this model.
- Tools.Placed: `map(int, coordinates)` is reduced to "two integers" or `NotCoercible`, so the
  coercion of strings and floats is not modelled.
- `_clean_tool_ids` accepts an int or a list. Callers of the model pass a sequence, and a
  lone id is a one-element sequence. This is what the source does for an int.
- WorkflowSpec.RemoveInputs requires every id to name a tool. `remove_tool_input` raises
  ToolDoesNotExist for an absent id in `_clean_tool_ids` before its loop runs, and
  `WorkflowSpec.RemoveToolInput` models that, so the loop only ever sees present ids.
- The `errors` dict is a record with its two keys, "input" and "config".
- The read-only properties (`id`, `inputs`, `outputs`, `number_of_outputs`, `coordinates`,
  `config`, `errors` getters) are not listed separately: they read fields of `ToolState`.
- `_build_flow` does nothing in the source and is not modelled.

## Findings

| source | as written | input that shows it | evidently intended | confidence | as-written member | corrected member |
|---|---|---|---|---|---|---|
| workflows/workflow.py:106-113 | `remove_tool` iterates `tool.outputs` and `tool.inputs`, the live sets that `remove_tool_input` shrinks inside the loop. CPython raises "RuntimeError: Set changed size during iteration" on the next step, so a linked non-root tool is never deleted | a workflow with tools 1 and 2 where 2 takes 1 as input; `remove_tool(1)` | unlink the tool from every linked tool, then delete it | not executed | WorkflowSpec.RemovingLinkedToolRaisesAsWritten | WorkflowSpec.RemoveToolEffect |
| workflows/workflow.py:133-135 | `add_tool_input` calls `add_output` on the producer even when `add_input` skipped the id because the consumer was full. The producer then lists an output that does not take it as input, and removing the consumer later leaves a dangling output id | two input tools 1 and 2 (capacity 0); `add_tool_input(1, [2])` | record the producer's output only when the input was added | not executed | WorkflowSpec.SkippedInputLeavesDanglingOutput | WorkflowSpec.AddToolInputValid |
