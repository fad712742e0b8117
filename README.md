# Orange-mine pipeline editor — a verified Dafny model

Orange-mine is a visual machine-learning pipeline editor. On the canvas a user
chains five kinds of node: data upload → preprocessing → train/test split →
model → results. The user configures each node in a side panel and submits the
graph to a backend. The backend orders the graph, runs the stages one after
another, and reports per-node statuses that the client polls.

This project models the logic at the core of that system and proves
properties of the model:

| file | module | what it models |
|---|---|---|
| `base.dfy` | `Base` | `Option`/`Result`, an order-keeping `Filter` with its lemmas, duplicate-free sequences |
| `json.dfy` | `Json` | dynamic values shared by the TypeScript and Python code: `undefined`/`null`, truthiness in both languages, `??`, `\|\|` and `or` |
| `api.dfy` | `Api` | the client's error-message fallback chain |
| `pipeline_store.dfy` | `PipelineStore` | the client store: a class with one field per store field, one method per action, and pure functions for configs, single-slot undo and the submission payload |
| `pipeline_canvas.dfy` | `PipelineCanvas` | the connection rule of the canvas and the guard in `onConnect` |
| `node_config_panel.dfy` | `NodeConfigPanel` | the commit gate, Apply/Cancel over the store's undo slot, the model-type switch, the statistics rows and the feature options |
| `multi_select.dfy` | `MultiSelect` | toggle, select-all, clear and the button label of the multi-select dropdown |
| `pipeline_routes.dfy` | `PipelineRoutes` | `_toposort` (Kahn's algorithm with a FIFO queue) as loops over maps and sequences, proved against cycles in the retained edges |
| `pipeline_execution.dfy` | `PipelineExecution` | the execution record, `execute`'s node-status initialisation, the sequential body of the worker's `run`, and `cancel` |
| `preprocessing_service.dfy` | `PreprocessingService` | column filtering and operation dispatch in `apply`, and the column defaulting of `get_stats`, over datasets given as column names with a dtype kind (boolean, number, other) |
| `model_service.dfy` | `ModelService` | column selection, error order, model-type dispatch with hyperparameter defaults, and the payload shape of `train` |
| `validators.dfy` | `Validators` | the upload file-name check |

Network calls, the backend services called by `run`, the graph library's
`addEdge` and id generation all appear as parameters. A request that may fail
becomes a `Result` outcome. A service becomes a function value. A fresh id is
passed in as an argument.

Where the system's written description and its code disagree, the model follows
the code:
- `stopPipeline` uses `try`/`finally` without `catch`, so a failed cancel request
  still reaches the caller. The store is unlocked and shown as cancelled
  regardless (`PipelineStore.Store.StopPipeline`).
- When an Apply fails, the committed config is put back but the undo slot still
  holds the snapshot. The snapshot equals the restored config, so a later Cancel
  is harmless (`NodeConfigPanel.Panel.OnApply`).
- `isValidConnection`'s rank comparison never rejects a pair that the `allowed`
  table admits (`PipelineCanvas.RankCheckIsRedundant`).
- `_toposort` fails only on a cycle. A node with no edges has in-degree 0 and is
  emitted, although the error text mentions "disconnected nodes"
  (`PipelineRoutes.Toposort`).
- `apply` takes the input's summary before it loops. A dataset without a
  number column therefore makes `apply` raise before anything is stored
  (`PreprocessingService.DatasetStore.Apply`). Boolean columns do not help:
  pandas counts them as numeric when `_numeric_columns` and `apply` pick
  columns, but `describe` only sees number columns, so a dataset whose
  numeric columns are all boolean raises too
  (`PreprocessingService.NoNumberColumnRaises`).
- Scaling writes float columns back, so a scaled boolean column becomes a
  number column and the summary after `apply` can describe more columns than
  the one before it (`PreprocessingService.ScaledBoolIsDescribed`).
- The panel reloads its draft and drops a picked file whenever the store
  writes the node's config. After a failed upload the config is written back,
  so the file is gone and a second Apply is blocked until a file is picked
  again (`NodeConfigPanel.RetryAfterFailedUpload`).

## Model

| member | source | states |
|---|---|---|
| `Api.GetErrorMessage` | frontend/src/lib/api.ts:9-16 | for a client error: the body's `error`, else its `message`, else the transport message; for another `Error`: its message; otherwise "Unknown error" |
| `Api.EmptyErrorFallsThrough` | frontend/src/lib/api.ts:12 | an empty-string `error` in the body is skipped and the body's `message` is used |
| `Api.MessageComesFromError` | frontend/src/lib/api.ts:9-16 | the message is always a string the error carries, or the fixed fallback |
| `PipelineStore.DefaultConfig` | frontend/src/lib/pipelineStore.ts:108-128 | a new config carries the node's kind and that kind's default fields: both preprocessing flags off with no columns; test size 0.2 and random state 42; logistic regression with no target, no features and `{max_iter 200, C 1.0}`; empty for upload and results |
| `PipelineStore.LabelFor` | frontend/src/lib/pipelineStore.ts:130-143 | every kind has a non-empty display label |
| `PipelineStore.PreprocessingOperations` | frontend/src/lib/pipelineStore.ts:149-153 | one operation per enabled flag, standardization first and normalization last, each with the config's columns |
| `PipelineStore.MakeBackendNodePayload` | frontend/src/lib/pipelineStore.ts:145-171 | keeps the node's id and kind name; the config is projected onto exactly the fields of its kind, each copied unchanged; preprocessing submits only `operations` |
| `PipelineStore.SubmissionFor` | frontend/src/lib/pipelineStore.ts:316-335 | one entry per node in node order, with `{}` as config for a node without one; every edge becomes its (source, target) pair, in order |
| `PipelineStore.DefaultPreprocessingSubmitsNoOperations` | frontend/src/lib/pipelineStore.ts:149-153 | a fresh preprocessing node submits an empty operation list |
| `PipelineStore.StandardizationOnlyScenario` | frontend/src/lib/pipelineStore.ts:145-171 | upload A → preprocessing B with standardization on over ["x"]: B submits exactly one standardization operation over ["x"], and the edge is submitted as (A, B) |
| `PipelineStore.MergeConfig` | frontend/src/lib/pipelineStore.ts:253-255 | a shallow merge: the kind is kept, patch fields overwrite, every other field is kept |
| `PipelineStore.UpdateConfig` | frontend/src/lib/pipelineStore.ts:248-259 | merges into the one node's config; other nodes and the undo slots are untouched; a node without a config makes it a no-op |
| `PipelineStore.ReplaceConfig` | frontend/src/lib/pipelineStore.ts:261-270 | replaces the node's payload wholesale and keeps every kind; no-op without a config |
| `PipelineStore.TakeSnapshot` | frontend/src/lib/pipelineStore.ts:272-278 | saves the current payload in the node's slot, overwriting it; other slots and all configs are kept; no-op without a config |
| `PipelineStore.UndoLastApply` | frontend/src/lib/pipelineStore.ts:280-285 | with a saved payload: restores it (kind kept) and empties the slot; with a missing or empty slot: changes nothing |
| `PipelineStore.ApplyEdits` | frontend/src/lib/pipelineStore.ts:248-270 | any sequence of updates and replaces on one node leaves the undo slots, the other nodes' configs and all kinds alone |
| `PipelineStore.UndoRevertsEdits` | frontend/src/lib/pipelineStore.ts:248-285 | snapshot, any edits, then undo: every config is back to its value before the snapshot and the node's slot is empty |
| `PipelineStore.UndoIsOneShot` | frontend/src/lib/pipelineStore.ts:280-285 | a second undo right after the first changes nothing |
| `PipelineStore.SnapshotOverwrites` | frontend/src/lib/pipelineStore.ts:272-278 | a second snapshot holds the payload as of that snapshot, so undo reaches back one Apply only |
| `PipelineStore.WithoutNodeFacts` | frontend/src/lib/pipelineStore.ts:193 | filtering out a node keeps exactly the other nodes, removes its id from the id set, and keeps ids unique |
| `PipelineStore.WithoutIncidentFacts` | frontend/src/lib/pipelineStore.ts:194 | the filtered edge list holds exactly the edges that touch neither end of the node |
| `PipelineStore.Store.constructor` | frontend/src/lib/pipelineStore.ts:173-185 | the store starts empty, idle and consistent |
| `PipelineStore.Store.SetSelectedNodeId` | frontend/src/lib/pipelineStore.ts:187 | the selection becomes the given id |
| `PipelineStore.Store.DeleteNode` | frontend/src/lib/pipelineStore.ts:191-210 | removes the node, every edge touching it, its config and its undo slot, keeping the rest in order; clears the selection iff it was that node; keeps the store consistent |
| `PipelineStore.Store.DisconnectNode` | frontend/src/lib/pipelineStore.ts:212-214 | removes exactly the edges touching the node; nodes, configs and undo slots are untouched |
| `PipelineStore.Store.ResetPipeline` | frontend/src/lib/pipelineStore.ts:216-230 | empties the graph, configs, undo slots and selection, and clears every execution field |
| `PipelineStore.Store.AddNode` | frontend/src/lib/pipelineStore.ts:232-246 | appends one node of the kind under the fresh id, with the kind's default config and an empty undo slot; existing entries are kept and the store stays consistent |
| `PipelineStore.Store.UpdateNodeConfig` | frontend/src/lib/pipelineStore.ts:248-259 | the configs and undo slots become `UpdateConfig` of the old ones; consistency is kept |
| `PipelineStore.Store.ReplaceNodeConfig` | frontend/src/lib/pipelineStore.ts:261-270 | the configs and undo slots become `ReplaceConfig` of the old ones |
| `PipelineStore.Store.TakeUndoSnapshot` | frontend/src/lib/pipelineStore.ts:272-278 | the configs and undo slots become `TakeSnapshot` of the old ones |
| `PipelineStore.Store.UndoLastApplyOf` | frontend/src/lib/pipelineStore.ts:280-285 | the configs and undo slots become `UndoLastApply` of the old ones |
| `PipelineStore.Store.UploadDataset` | frontend/src/lib/pipelineStore.ts:287-299 | a failed request propagates and leaves the configs alone; a response is merged as file name, dataset id and info |
| `PipelineStore.Store.LoadSampleDataset` | frontend/src/lib/pipelineStore.ts:301-309 | as upload, with the response's file name preferred over the requested one unless it is missing |
| `PipelineStore.Store.PollExecutionOnce` | frontend/src/lib/pipelineStore.ts:357-371 | a no-op without an execution id; a failed fetch propagates and changes nothing; otherwise node statuses and results are replaced wholesale (`{}` when missing), the store is busy iff the status is running or queued, and the status and message are copied |
| `PipelineStore.Store.RunPipeline` | frontend/src/lib/pipelineStore.ts:311-343 | with no nodes it fails before any change; otherwise it resets to a queued run, submits `SubmissionFor` of the graph, stores the returned id and polls once; a failed submit or poll unlocks the store, leaves it "queued" and rethrows the extracted message |
| `PipelineStore.Store.StopPipeline` | frontend/src/lib/pipelineStore.ts:345-355 | a no-op without an execution id; otherwise the store ends unlocked and "cancelled" whether or not the request failed, and a failure propagates |
| `PipelineStore.TwoPollsScenario` | frontend/src/lib/pipelineStore.ts:311-371 | a run polled as running and then as successful ends unlocked and shows exactly the second report |
| `PipelineStore.StopDespiteFailedCancelScenario` | frontend/src/lib/pipelineStore.ts:345-355 | stopping a running run whose cancel request throws still unlocks it and shows "cancelled", and the caller sees the error |
| `PipelineCanvas.IsValidConnection` | frontend/src/components/PipelineCanvas.tsx:40-58 | the check as written (both endpoints found, the `allowed` successor, increasing rank); it has no contract of its own, and `ValidConnectionCharacterised` states what it accepts |
| `PipelineCanvas.FindNode` | frontend/src/components/PipelineCanvas.tsx:41-42 | the first node with the id, or none exactly when no node has it |
| `PipelineCanvas.KindsMayConnectIffChainStep` | frontend/src/components/PipelineCanvas.tsx:49-57 | the rule admits exactly the four adjacent pairs of the stage chain |
| `PipelineCanvas.RankCheckIsRedundant` | frontend/src/components/PipelineCanvas.tsx:32-57 | every allowed pair is one rank apart, so the rank comparison adds no constraint |
| `PipelineCanvas.RejectedShapes` | frontend/src/components/PipelineCanvas.tsx:49-57 | self-links, stage-skipping and reversed pairs are rejected, and nothing leaves results |
| `PipelineCanvas.ValidConnectionCharacterised` | frontend/src/components/PipelineCanvas.tsx:40-58 | a connection is valid iff both endpoints are found and they form a chain step |
| `PipelineCanvas.MissingEndpointRejected` | frontend/src/components/PipelineCanvas.tsx:41-46 | an unset handle, or an id naming no node, makes the connection invalid |
| `PipelineCanvas.SelfConnectionRejected` | frontend/src/components/PipelineCanvas.tsx:40-58 | a connection from a node to itself is never valid |
| `PipelineCanvas.OnConnect` | frontend/src/components/PipelineCanvas.tsx:125-131 | an invalid connection leaves the edges unchanged; a valid one hands them to `addEdge`, animated iff a run is executing |
| `NodeConfigPanel.ValidationError` | frontend/src/components/NodeConfigPanel.tsx:98-116 | upload is blocked iff the committed config has no dataset id and no file is pending; preprocessing passes iff the draft has an operation and a column; model passes iff the draft has a target and a feature; split and results always pass |
| `NodeConfigPanel.UploadGateIgnoresDraft` | frontend/src/components/NodeConfigPanel.tsx:99-103 | the upload gate gives the same answer whatever the draft |
| `NodeConfigPanel.GateErrorOrder` | frontend/src/components/NodeConfigPanel.tsx:104-115 | a missing operation is reported before missing columns, and a missing target before missing features |
| `NodeConfigPanel.DefaultsAgainstGate` | frontend/src/components/NodeConfigPanel.tsx:98-116 | a fresh node passes the gate iff it is a split or results node |
| `NodeConfigPanel.CarriedHyperparameters` | frontend/src/components/NodeConfigPanel.tsx:390-393 | the new type's keys only; a present non-null old value is kept (0 included); otherwise 200 and 1.0, or no depth, 2 and 42 |
| `NodeConfigPanel.SwitchModelType` | frontend/src/components/NodeConfigPanel.tsx:386-394 | sets the model type and the carried hyperparameters; every other draft field is kept |
| `NodeConfigPanel.SwitchModelTypeIdempotent` | frontend/src/components/NodeConfigPanel.tsx:386-394 | picking the same type twice equals picking it once |
| `NodeConfigPanel.ZeroSurvivesSwitch` | frontend/src/components/NodeConfigPanel.tsx:393 | a zero random state survives a switch to decision tree |
| `NodeConfigPanel.SwitchAwayAndBackResets` | frontend/src/components/NodeConfigPanel.tsx:390-393 | switching to tree and back to logistic resets max_iter and C to their defaults |
| `NodeConfigPanel.DescribeToRows` | frontend/src/components/NodeConfigPanel.tsx:33-42 | at most eight rows, one per leading key of `mean` in order, each with its mean and the `std` entry of the same key |
| `NodeConfigPanel.FeatureOptions` | frontend/src/components/NodeConfigPanel.tsx:475 | the offered features are exactly the data columns other than the current target, in the columns' order |
| `NodeConfigPanel.NoTargetOffersAll` | frontend/src/components/NodeConfigPanel.tsx:475 | with no target chosen every column is offered, in order |
| `NodeConfigPanel.Panel.constructor` | frontend/src/components/NodeConfigPanel.tsx:65-69 | a loaded panel's draft is the committed payload and no file is pending |
| `NodeConfigPanel.Panel.OnConfigChange` | frontend/src/components/NodeConfigPanel.tsx:65-69 | a new committed config reloads the draft from it and drops the pending file |
| `NodeConfigPanel.Panel.OnApply` | frontend/src/components/NodeConfigPanel.tsx:128-153 | blocked by the gate: nothing changes, `busy` included; otherwise the slot takes the committed payload first, then the draft or upload response is merged, or a failed upload restores the payload and reports the message; every such write reloads the draft from the committed config and drops the file; `busy` ends false |
| `NodeConfigPanel.RetryAfterFailedUpload` | frontend/src/components/NodeConfigPanel.tsx:65-153 | on an upload node without a dataset, a failed upload reports its message, leaves the configs as they were and drops the file, so the next Apply is blocked |
| `NodeConfigPanel.Panel.OnCancel` | frontend/src/components/NodeConfigPanel.tsx:118-126 | the store undoes the node's last Apply, the draft shows the resulting committed payload, and the file is dropped |
| `NodeConfigPanel.ApplyThenCancel` | frontend/src/components/NodeConfigPanel.tsx:118-153 | Apply then Cancel on a node that passes the gate leaves every config as before, with the slot empty and the draft showing the pre-Apply payload |
| `MultiSelect.Toggle` | frontend/src/components/MultiSelect.tsx:23-28 | a selected option loses every occurrence and the others stay in their order; an unselected one is appended at the end |
| `MultiSelect.ToggleKeepsOtherCounts` | frontend/src/components/MultiSelect.tsx:25 | removing an option keeps every other value as often as before |
| `MultiSelect.ToggleTwiceRestores` | frontend/src/components/MultiSelect.tsx:23-28 | toggling an unselected option twice returns the original list |
| `MultiSelect.ToggleSelectedTwiceMovesToEnd` | frontend/src/components/MultiSelect.tsx:23-28 | toggling a selected option twice leaves one occurrence of it, at the end |
| `MultiSelect.SelectAll` | frontend/src/components/MultiSelect.tsx:42 | the selection becomes exactly the options, in order |
| `MultiSelect.Clear` | frontend/src/components/MultiSelect.tsx:48 | the selection becomes empty |
| `Base.NatToString` | frontend/src/components/MultiSelect.tsx:31 | the decimal digits of the number, with no leading zero, whose value is the number |
| `MultiSelect.Label` | frontend/src/components/MultiSelect.tsx:31 | for a non-empty selection: decimal digits whose value is the selection's size, then " selected"; the placeholder otherwise |
| `MultiSelect.LabelTellsCount` | frontend/src/components/MultiSelect.tsx:31 | two non-empty selections with the same label have the same size |
| `PipelineRoutes.Retained` | backend/routes/pipeline_routes.py:27-30 | the kept edges are exactly the edges whose two endpoints are submitted nodes |
| `PipelineRoutes.CountEdges` | backend/routes/pipeline_routes.py:23-32 | every node gets a predecessor count and a successor list, equal to the in-degree and successors over the kept edges |
| `PipelineRoutes.Release` | backend/routes/pipeline_routes.py:40-43 | decrementing the successors of the emitted node, and queueing those that reach zero, keeps the ordering invariant |
| `PipelineRoutes.Toposort` | backend/routes/pipeline_routes.py:22-48 | fails with the fixed message iff the kept edges contain a cycle; on success lists every node exactly once with every kept edge going forward |
| `PipelineRoutes.ForwardMeansAcyclic` | backend/routes/pipeline_routes.py:45-48 | if every edge goes forward in a list, the graph has no cycle |
| `PipelineRoutes.StuckNodesHaveCycle` | backend/routes/pipeline_routes.py:37-46 | if every node left over has a predecessor among the left-over nodes, there is a cycle |
| `PipelineRoutes.KahnStart` | backend/routes/pipeline_routes.py:34-35 | the in-degree-0 nodes form a valid starting queue |
| `PipelineRoutes.KahnPop` | backend/routes/pipeline_routes.py:37-39 | emitting the head of the queue keeps the ordering invariant |
| `PipelineRoutes.KahnFinish` | backend/routes/pipeline_routes.py:45-48 | at the end the output covers every node iff there is no cycle |
| `PipelineRoutes.CountSplit` | backend/routes/pipeline_routes.py:40-41 | emitting a node lowers each count by the number of its edges to that node |
| `PipelineExecution.ParseType` | backend/routes/pipeline_routes.py:85-164 | each of the five names maps to its stage; anything else is an unknown type shown as the text `run` reports |
| `PipelineExecution.ClientKindsAreDispatched` | backend/routes/pipeline_routes.py:85-164 | the tag the editor writes for each node kind reaches that kind's stage of `run`, never the unknown-type error |
| `PipelineExecution.Step` | backend/routes/pipeline_routes.py:84-166 | one node's work: the value recorded and the new context, or the exception's text; it has no contract of its own, and `StepChecks` and `StagesFeedTheNext` state its checks and context updates |
| `PipelineExecution.StepChecks` | backend/routes/pipeline_routes.py:90-164 | each stage's input check and message; an unknown type is rejected; upload succeeds iff its dataset id is truthy and known; results succeeds iff there is a model result; a successful stage keeps the context's keys |
| `PipelineExecution.FirstNodeMustUpload` | backend/routes/pipeline_routes.py:76-164 | at the head of a run only an upload node can succeed |
| `PipelineExecution.StagesFeedTheNext` | backend/routes/pipeline_routes.py:94-155 | each successful stage leaves in the context the inputs the next stage checks for |
| `PipelineExecution.NodeMap` | backend/routes/pipeline_routes.py:74 | the map's keys are the submitted ids, and each id maps to a node with that id |
| `PipelineExecution.NodeMapLastWins` | backend/routes/pipeline_routes.py:74 | a later node with the same id wins |
| `PipelineExecution.RunFrom` | backend/routes/pipeline_routes.py:78-168 | the loop from a position: it ends "success", "cancelled" or "error", with a message exactly for "error", and only adds node statuses and results |
| `PipelineExecution.StopAt` | backend/routes/pipeline_routes.py:78-166 | the run stops within the order, at or after its start |
| `PipelineExecution.RunStatus` | backend/routes/pipeline_routes.py:78-172 | "success" iff the run reaches the end; "cancelled" iff the flag is seen at the stop, with that node cancelled; otherwise "error" with a message and the failing node "running" |
| `PipelineExecution.RunPrefixSucceeds` | backend/routes/pipeline_routes.py:88-166 | every node before the stop ends "success" and has a result |
| `PipelineExecution.RunKeeps` | backend/routes/pipeline_routes.py:78-166 | nodes the run does not visit keep their status and result |
| `PipelineExecution.RunLeavesRest` | backend/routes/pipeline_routes.py:78-82 | nodes after the stop keep their status |
| `PipelineExecution.QueuedStatus` | backend/routes/pipeline_routes.py:60-64 | every node with a non-empty id is "queued", and only those |
| `PipelineExecution.ExecutionState.constructor` | backend/routes/pipeline_routes.py:57-64 | a fresh record is queued with no message, no results and no cancel request, and its node statuses are `QueuedStatus` |
| `PipelineExecution.ExecutionState.RunNodes` | backend/routes/pipeline_routes.py:76-168 | the loop leaves exactly the status, node statuses, results and message of `RunFrom` over the order |
| `PipelineExecution.ExecutionState.Run` | backend/routes/pipeline_routes.py:68-172 | a cycle ends the run in "error" with the ordering's message and no node touched; otherwise the nodes run in a topological order of the submitted graph |
| `PipelineExecution.Executions.constructor` | backend/services/storage.py:20-25 | the registry starts empty |
| `PipelineExecution.Executions.Execute` | backend/routes/pipeline_routes.py:51-66 | adds exactly the fresh id to the registry, with a new record carrying that id, status "queued", an empty message, no results, no cancel request and `QueuedStatus` node statuses; answers "queued"; other records are kept |
| `PipelineExecution.Executions.Cancel` | backend/routes/pipeline_routes.py:196-203 | an unknown id answers "Execution not found"; otherwise only the record's flag is raised (its id, status, node statuses, message and results are kept, and the registry is unchanged) and the answer is "cancelling" |
| `PipelineExecution.ExecuteThenCancel` | backend/routes/pipeline_routes.py:51-203 | a run registered and then cancelled before its worker starts is still queued, with its id, no message, no results and its flag raised; the answer is "cancelling" |
| `PreprocessingService.ColumnsOfSpec` | backend/services/preprocessing_service.py:19-26 | the columns of the given dtypes are exactly the names of the columns of those dtypes, in column order: with booleans and numbers this is `_numeric_columns`, with numbers only it is what `select_dtypes(include=["number"])` keeps |
| `PreprocessingService.NumbersAreNumeric` | backend/services/preprocessing_service.py:20-26 | every number column is a numeric column |
| `PreprocessingService.NumericColumns` | backend/services/preprocessing_service.py:19-20 | `_numeric_columns`, the column filter by `is_numeric_dtype` (booleans count); `ColumnsOfSpec` states it |
| `PreprocessingService.Selected` | backend/services/preprocessing_service.py:37-42 | an operation acts on exactly the requested columns that exist and are numeric, in the order requested |
| `PreprocessingService.ScalingOf` | backend/services/preprocessing_service.py:46-51 | only "standardization" and "normalization" name a scaler |
| `PreprocessingService.Scale` | backend/services/preprocessing_service.py:48-51 | the named numeric columns go through the scaler and come back as number columns; names and the other columns are kept |
| `PreprocessingService.ApplyOp` | backend/services/preprocessing_service.py:36-51 | one pass of the loop; it has no contract of its own, and `ApplyOpEffect`, `NoOpCases` and `ScalesExactlySelected` state it |
| `PreprocessingService.ApplyOpSteps` | backend/services/preprocessing_service.py:37-51 | one pass equals the source's branch order: no requested column present, or none numeric, leaves the dataset; otherwise standardization or normalization scales the numeric ones, and any other type leaves it |
| `PreprocessingService.ApplyOpEffect` | backend/services/preprocessing_service.py:36-51 | one operation keeps the names and which columns are numeric; any changed column is a requested numeric column that went through the operation's scaler and now holds numbers |
| `PreprocessingService.NoOpCases` | backend/services/preprocessing_service.py:39-51 | an unknown type, or no requested numeric column, leaves the dataset unchanged |
| `PreprocessingService.ScalesExactlySelected` | backend/services/preprocessing_service.py:42-51 | a known operation scales a column, making it a number column, iff it is selected; other columns are unchanged |
| `PreprocessingService.ApplyAll` | backend/services/preprocessing_service.py:35-51 | the whole loop, operations in list order; it has no contract of its own, and the lemmas below state it |
| `PreprocessingService.ApplyAllKeepsSchema` | backend/services/preprocessing_service.py:35-51 | the loop never renames, reorders or drops a column and keeps which are numeric; the one dtype change is a scaled boolean column becoming a number column |
| `PreprocessingService.NonNumericUntouched` | backend/services/preprocessing_service.py:42 | a non-numeric column comes out unchanged |
| `PreprocessingService.ApplyAllAppend` | backend/services/preprocessing_service.py:35 | operations apply in list order: running a + b equals running a and then b |
| `PreprocessingService.ApplyAllSnoc` | backend/services/preprocessing_service.py:35 | running one more operation is one more pass of the loop |
| `PreprocessingService.GetStats` | backend/services/preprocessing_service.py:23-28 | no columns (None or empty) means the numeric ones, booleans included; unknown columns raise; no number column among them raises; otherwise the summary lists the columns and describes exactly the number columns among them |
| `PreprocessingService.StatsDefaultToNumeric` | backend/services/preprocessing_service.py:25-27 | with some number column and no columns asked for, the summary lists exactly the numeric columns and describes exactly the number columns |
| `PreprocessingService.NoNumberColumnRaises` | backend/services/preprocessing_service.py:25-27 | with no number column (booleans only, or nothing numeric) and no columns asked for, the summary raises |
| `PreprocessingService.DefaultStatsFollowSchema` | backend/services/preprocessing_service.py:53-55 | when the names and numeric columns are kept and number columns stay numbers, a default summary that exists survives: same columns, at least the same described ones |
| `PreprocessingService.ApplyAllKeepsStats` | backend/services/preprocessing_service.py:33-55 | whenever the input's default summary exists, so does the result's, over the same columns |
| `PreprocessingService.ScaledBoolIsDescribed` | backend/services/preprocessing_service.py:26-55 | columns x (number) and flag (boolean), flag standardized: the summary before describes x only, the one after describes x and flag |
| `PreprocessingService.DatasetStore.constructor` | backend/services/storage.py:20-25 | the registry starts empty |
| `PreprocessingService.DatasetStore.Apply` | backend/services/preprocessing_service.py:31-60 | an unknown id or a failing first summary raises with nothing stored; otherwise the input is kept, the operations' result in list order is stored under the fresh id, and both summaries are returned |
| `ModelService.MessagesDiffer` | backend/services/model_service.py:32-79 | the three error messages are pairwise different |
| `ModelService.PrepareColumns` | backend/services/model_service.py:31-36 | raises iff the target is missing; otherwise raises iff no requested column is usable; the features are the requested columns present and other than the target, in requested order |
| `ModelService.ChooseModel` | backend/services/model_service.py:66-79 | only the two model types are supported; any other raises the fixed message |
| `ModelService.DefaultHyperparameters` | backend/services/model_service.py:66-76 | without hyperparameters: max_iter 200 and C 1.0; unlimited depth, min_samples_split 2 and random_state 42 |
| `ModelService.GivenHyperparametersKept` | backend/services/model_service.py:66-76 | a hyperparameter that is present is used even when falsy |
| `ModelService.DepthLimit` | backend/services/model_service.py:71-74 | depth is unlimited exactly for a missing, None, "", 0 or False value; any other value is kept |
| `ModelService.Payload` | backend/services/model_service.py:94-113 | always model id, status "success", the four metrics, confusion matrix and report; `feature_importance` iff a decision tree has importances |
| `ModelService.TrainOutcome` | backend/services/model_service.py:59-79 | the checks of `train` before fitting; it has no contract of its own, and `ErrorOrder` states it |
| `ModelService.ErrorOrder` | backend/services/model_service.py:59-79 | the training frame's column errors come first, then the test frame's; an unsupported type is reported only when both frames pass |
| `ModelService.ModelStore.constructor` | backend/services/storage.py:20-25 | the model registry starts empty |
| `ModelService.ModelStore.Train` | backend/services/model_service.py:51-115 | an error stores nothing; success stores the model under the fresh id and returns its payload |
| `Validators.Lower` | backend/utils/validators.py:18 | the same length, with each ASCII capital replaced by its lower-case letter and every other character kept |
| `Validators.LowerIdempotent` | backend/utils/validators.py:18 | lower-casing twice equals lower-casing once |
| `Validators.ValidateFileExtension` | backend/utils/validators.py:17-22 | accepted iff the lower-cased name ends with an allowed extension; otherwise the fixed message |
| `Validators.CaseIgnored` | backend/utils/validators.py:18 | a name and its lower-cased form are judged alike |
| `Validators.UpperCaseAccepted` | backend/utils/validators.py:18-19 | "DATA.CSV" is accepted |
| `Validators.InnerSuffixRejected` | backend/utils/validators.py:19-22 | "a.csv.exe" is rejected |
| `Validators.BareExtensionRejected` | backend/utils/validators.py:19-22 | "csv" without the dot is rejected |

## Left out

- HTTP calls (axios `post`/`get`): each request is an outcome parameter, and a thrown value is `Api.Thrown`.
- The polling timer of the app shell: the model has single polls only, and nothing orders overlapping polls.
- The graph library's `addEdge`, `applyNodeChanges` and `applyEdgeChanges`: `addEdge` is an opaque function parameter, so duplicate-edge handling is not stated. `setNodes`/`setEdges` are plain assignments and are not modelled.
- React rendering, toasts, the sidebar, top bar and node components, and the canvas's menu, keyboard and drag-and-drop handlers: presentation only.
- The panel's `busy` flag is modelled, but only as false after Apply; its true interval spans an `await`, which the model does not split.
- The panel's effect also clears the preview statistics; they are not modelled. The effect fires on a new config object: the model reloads after each store write to the node, which is when the store makes one.
- The `columnsFromData` lookup of the panel (the first upload node's column names): the feature options take the column list as an argument.
- The worker thread, the lock of the in-memory store, and the concurrent setting of `cancel_requested`: `cancelFrom` is the position at which the loop first sees the flag.
- The status route and the Flask request plumbing (app, data, model and preprocessing routes).
- pandas and sklearn work: file parsing, the scalers' numbers, `train_test_split`, `dropna`/`get_dummies`, fitting and metrics. A dataset is its columns (name, dtype kind, the scalings applied so far); splitting, preprocessing and training are service parameters of `run`. The dtype kinds are boolean, number and other; which number dtype (integer or float) a column has is not modelled.
- Floating point: the metrics are `real`, and `test_size`, `C` and the scaler output are not computed.
- `ModelService.ChooseModel`: the `int()`/`float()` conversions of hyperparameters are not modelled; values pass through as given, so a conversion error is not a modelled outcome.
- `ModelService.ModelStore.Train`: the feature names after one-hot encoding, the metrics and the importances come from an opaque evaluation function. That function is total, so an exception raised by `model.fit` (a single-class target, or no rows left after `dropna`) is not a modelled outcome: the model never fails at fitting, where the source would store nothing and raise.
- `PreprocessingService.GetStats`: the `describe` numbers are not modelled, only which columns it covers; pandas's exact error texts are replaced by error kinds.
- `NodeConfigPanel.DescribeToRows`: the key order of `describe.mean` is taken as given. JavaScript's `Object.keys` lists integer-like keys first, in ascending order, and then the others in insertion order; that reordering is not modelled.
- `PipelineExecution.Executions.Execute`: the answer is "queued". The source reads the record's status after starting the worker thread, so it may answer "running" (or a later status) when the worker has already moved on; the thread interleaving is not modelled.
- Duplicate column names in a dataset: the source's frames do not have them, and the model does not treat them.
- Id generation (`crypto.randomUUID`, `uuid4`): a fresh id is passed in. `structuredClone` is a value copy, since configs are values.
- Submitted data with a non-string id or type, a node without an id, a non-object config or operation, or a non-string column entry: the backend model takes well-typed nodes and operations.
- `Validators.ValidateFileExtension`: `str.lower` is modelled on ASCII letters only; other Unicode case mappings are not.
