# Hogwild! coordinator and deployment configuration — a Dafny model

This project models the sequential logic of two scripts of a distributed
Hogwild! SGD trainer:

* **The coordinator** (`src/hogwild/coordinator.py`). It registers every worker
  and sends each one its peer list. It broadcasts the start parameters, then
  runs the main round loop. In synchronous mode a round has two barriers: the
  first waits for every worker's weight update, broadcasts the aggregate and
  applies it locally; the second waits for every worker's ready signal and
  releases them all. In asynchronous mode the coordinator waits until the
  accumulator holds enough weight indices, then folds it into the model.
  After each round it records the validation loss and, when early stopping
  fires, broadcasts a stop message. After the loop, asynchronous mode folds
  what is left. The script's pure set-up arithmetic is modelled as well: the
  train/validation split by index, the model dimension and the per-label
  counts used for accuracy.
* **The deployment configuration script** (`Kubernetes/configs_processor.py`).
  It sets the workers' `replicas` to the worker count. It also rewrites the
  `N_WORKERS`, `RUNNING_MODE` and `DATA_PATH` entries of the container env
  list in both the workers' and the coordinator's manifest.

Files:

* `base.dfy`, module `Base`: `Option`, `Result`, `Distinct`.
* `coordinator_data.dfy`, module `CoordinatorData`: split, dimension and label counts, as functions and lemmas.
* `coordinator.dfy`, module `CoordinatorProtocol`: peer lists, the stubs dict's keys, the send logs, and the class `Coordinator`.
* `documents.dfy`, module `Documents`: a loaded YAML/JSON document and Python's subscript read and subscript assignment on it.
* `configs_processor.dfy`, module `ConfigsProcessor`: the env rewrite, the running mode, and the whole script as one method.

How the coordinator is modelled. `Coordinator` has the fields the script and
its servicer update in place: the stubs (as the dict's keys in insertion
order), `waitForAllNodesCounter`, `readyToGoCounter`, `epochsDone`,
`allDeltaW`, `lossesVal` and `stoppingCritReached`. Outbound RPCs are not
performed. Each one is appended to the ghost log `sent` as an envelope, and
each `svm.update_weights` call to the ghost log `updates`. A ghost `stage`
records where the script's control is. Each busy-wait loop becomes a
precondition of the step that follows it. The loss value, the
early-stopping verdict and the timestamp are computed by code outside the
model, so they are parameters of `RecordRound`.

Behaviour of the script worth noting (the model follows the code):

* The asynchronous trigger is `len(all_delta_w) >= subset_size * n`: the
  number of distinct weight indices in the accumulator, not a volume of
  submitted deltas.
* The final asynchronous fold does not clear the accumulator.
* No worker-failure handling, cancellation or abort path exists in the
  script beyond propagating the exception, and `KeyboardInterrupt` only
  stops the server.
* The synchronous barrier target is `len(s.node_addresses)`, counting
  duplicates. Broadcasts go to the distinct keys of `stubs`. The two agree
  only when the addresses are distinct (`StubKeysOfDistinct`).

## Model

| member | source | states |
|---|---|---|
| `CoordinatorData.TrainIndices` | src/hogwild/coordinator.py:25-26 | Each train index is below n and not a validation index. Every such index appears. The indices are strictly increasing, so the original order is kept. |
| `CoordinatorData.Pick` | src/hogwild/coordinator.py:27-28 | `[xs[x] for x in idx]` has one entry per index, and entry k is `xs[idx[k]]`. |
| `CoordinatorData.SplitByIndex` | src/hogwild/coordinator.py:25-28 | The validation part is `xs[val[k]]` in the order of the validation indices. The train part is the samples at the train indices, in order. |
| `CoordinatorData.TrainCountBelow` | src/hogwild/coordinator.py:25-26 | The number of train indices plus the number of distinct validation indices below n equals n. |
| `CoordinatorData.DistinctCard` | src/hogwild/coordinator.py:24 | A duplicate-free index list, such as `random.sample` returns, has as many distinct elements as entries. |
| `CoordinatorData.SplitPartition` | src/hogwild/coordinator.py:24-28 | With distinct in-range validation indices, every index is in exactly one of train or validation. Train keeps the original order. Train size plus validation size equals the total. |
| `CoordinatorData.Features` | src/hogwild/coordinator.py:60 | The feature indices of a data point are the keys of its items, in order. |
| `CoordinatorData.MaxOf` | src/hogwild/coordinator.py:60 | Python `max` of a non-empty list is an element of it and bounds every element. |
| `CoordinatorData.MaxFeature` | src/hogwild/coordinator.py:60 | The largest feature index bounds every feature index of every data point and occurs in some data point. |
| `CoordinatorData.Dim` | src/hogwild/coordinator.py:60 | `dim` is absent (ValueError) exactly when there is no data or some point has no features. Otherwise every feature index is strictly below `dim`, and `dim - 1` occurs. |
| `CoordinatorData.CountLabel` | src/hogwild/coordinator.py:139 | The count of targets with a given label is at most the number of targets. |
| `CoordinatorData.CountLabelIsMultiplicity` | src/hogwild/coordinator.py:139 | The count of targets with a given label is the number of occurrences of that label in the targets. |
| `CoordinatorData.CountCorrect` | src/hogwild/coordinator.py:138 | The count of correct predictions for a label is bounded by both the targets with that label and the predictions with that label. |
| `CoordinatorData.CountCorrectFrom` | src/hogwild/coordinator.py:138 | From any position on, the count over the `zip` of the two suffixes is the number of positions, within both lists, where target and prediction both equal the label. |
| `CoordinatorData.CountCorrectCounts` | src/hogwild/coordinator.py:138 | The count of correct predictions is exactly the number of positions, within the shorter list, where target and prediction both equal the label. |
| `CoordinatorData.LabelTotals` | src/hogwild/coordinator.py:139-143 | The totals for label 1 and label -1 add up to at most the number of targets, and to exactly that number when every target is 1 or -1. |
| `CoordinatorData.Tally` | src/hogwild/coordinator.py:138-143 | `a` and `c` are the numbers of positions where target and prediction are both 1, respectively both -1. `b` and `d` are the numbers of occurrences of 1 and of -1 among the targets. `a <= b`, `c <= d` and `b + d <= len(targets_val)`. |
| `CoordinatorProtocol.IndexOf` | src/hogwild/coordinator.py:46 | Returns the first position of the address. |
| `CoordinatorProtocol.PeerList` | src/hogwild/coordinator.py:45-46 | The peer list is the address list with the first occurrence of the node removed. |
| `CoordinatorProtocol.PeerListOfDistinct` | src/hogwild/coordinator.py:45-46 | With distinct addresses, the peer list has n - 1 entries and excludes the node. It equals the order-preserving filter of all other addresses and contains exactly those. |
| `CoordinatorProtocol.InsertKey` | src/hogwild/coordinator.py:43 | Assigning into the dict keeps the existing keys in their places and adds at most one key at the end. Afterwards the keys are the old ones plus the new address, and a duplicate-free key list stays duplicate-free. |
| `CoordinatorProtocol.StubKeys` | src/hogwild/coordinator.py:34-43 | The stubs dict's keys are duplicate-free, are exactly the listed addresses, and are no more numerous than the addresses. |
| `CoordinatorProtocol.StubKeysStep` | src/hogwild/coordinator.py:43 | One more `stubs[node_addr] = stub` inserts that key if it is new. |
| `CoordinatorProtocol.StubKeysOfDistinct` | src/hogwild/coordinator.py:34-43 | With distinct addresses the stubs are iterated in address order. |
| `CoordinatorProtocol.ReceivedAppend` | src/hogwild/coordinator.py:93-129 | What a worker receives from two consecutive send phases is what it receives from the first, then from the second. |
| `CoordinatorProtocol.BroadcastReachesEachStubOnce` | src/hogwild/coordinator.py:127-129 | A broadcast delivers its message exactly once to each stub and to nobody else. |
| `CoordinatorProtocol.SyncRoundDelivery` | src/hogwild/coordinator.py:93-106 | Over a synchronous round, each stub receives exactly the aggregate `GetWeightUpdate` and then one `GetReadyToGo`. |
| `CoordinatorProtocol.Coordinator.constructor` | src/hogwild/coordinator.py:34-85 | No stubs, empty accumulator and loss list, counters at 0, stop flag clear, empty logs. |
| `CoordinatorProtocol.Coordinator.RegisterNodes` | src/hogwild/coordinator.py:36-50 | After the loop the stubs are the insertion-ordered keys of the address list. Each listed node was sent `NodeInfo(coordinator, its peer list, val_indices)`, in list order. |
| `CoordinatorProtocol.Coordinator.Broadcast` | src/hogwild/coordinator.py:93-95 | One send loop appends one envelope per stub, in stub order, all carrying the same message. |
| `CoordinatorProtocol.Coordinator.StartSGD` | src/hogwild/coordinator.py:69-75 | Every stub is sent the same `StartMessage` with the run's parameters and `dim`. |
| `CoordinatorProtocol.Coordinator.NodeCount` | src/hogwild/coordinator.py:86-112 | The barrier target `len(s.node_addresses)` is never below the number of stubs, and it equals that number when the addresses are distinct. |
| `CoordinatorProtocol.Coordinator.LoopTest` | src/hogwild/coordinator.py:86 | The loop continues exactly when `epochs_done != n` and no stop has fired. It then enters the synchronous or the asynchronous round. |
| `CoordinatorProtocol.Coordinator.SyncExchange` | src/hogwild/coordinator.py:88-99 | Proceeds only when `wait_for_all_nodes_counter == n`. Every stub gets `GetWeightUpdate` with the current aggregate, and `update_weights` gets that same aggregate. Afterwards the accumulator is empty and the counter is 0. |
| `CoordinatorProtocol.Coordinator.SyncRelease` | src/hogwild/coordinator.py:100-107 | Proceeds only when `ready_to_go_counter == n`. Every stub gets one `GetReadyToGo`, and the counter is reset to 0. |
| `CoordinatorProtocol.Coordinator.AsyncFold` | src/hogwild/coordinator.py:110-116 | Proceeds only when `len(all_delta_w) >= subset_size * n`. `update_weights` gets the accumulated dict, and the accumulator is left empty. Nothing is sent. |
| `CoordinatorProtocol.Coordinator.RecordRound` | src/hogwild/coordinator.py:118-129 | Appends exactly one loss entry. The stop flag becomes the criterion's verdict. Every stub gets `GetStopMessage` exactly when the criterion fired. |
| `CoordinatorProtocol.Coordinator.FinalFold` | src/hogwild/coordinator.py:133-135 | In asynchronous mode the remaining accumulator goes to `update_weights`. In synchronous mode nothing happens. |
| `Documents.Subscript` | Kubernetes/configs_processor.py:34 | `v[k]` succeeds exactly on a dict holding the key, or on a list or string with the position in range. |
| `Documents.Store` | Kubernetes/configs_processor.py:33 | `v[k] = x` succeeds exactly on a dict, or on a list with the position in range. Afterwards `v[k]` is `x`, and every other key reads as before. |
| `Documents.Lookup` | Kubernetes/configs_processor.py:34 | The chained read `v[p0]...[pn]` is the read of all but the last key followed by one more subscript, and it stops at the first failing subscript with that subscript's error. |
| `Documents.Assign` | Kubernetes/configs_processor.py:33 | When a nested assignment succeeds, the containers down to the last key could be read, and reading the same path afterwards gives the assigned value. `AssignOkIff`, `AssignElsewhere` and `AssignWhereFound` state the rest of its contract. |
| `Documents.AssignOkIff` | Kubernetes/configs_processor.py:33 | A nested assignment succeeds exactly when the containers down to the last key can be read and the last one accepts the store. So a new key can be added to a readable dict. |
| `Documents.AssignElsewhere` | Kubernetes/configs_processor.py:33-38 | A nested assignment leaves every path that parts from it unchanged. |
| `Documents.LookupThroughStrFails` | Kubernetes/configs_processor.py:34 | A path ending in a mapping key cannot be read through a string. |
| `Documents.AssignWhereFound` | Kubernetes/configs_processor.py:38 | Assigning to a readable path ending in a mapping key succeeds. |
| `ConfigsProcessor.RunningMode` | Kubernetes/configs_processor.py:31 | The mode is `'asynchronous'` exactly when the flag is set, and `'synchronous'` exactly when it is not. |
| `ConfigsProcessor.Elements` | Kubernetes/configs_processor.py:35 | The elements the comprehension visits. A list yields its items, and an empty dict or empty string yields nothing. A non-empty dict or string fails with `TypeError`, as `x['name']` does on its first key or character. Any other value fails with `TypeError` because it cannot be iterated. |
| `ConfigsProcessor.Entry` | Kubernetes/configs_processor.py:35 | A replacement entry's `'name'` is the name it was built with. |
| `ConfigsProcessor.ReplaceNamed` | Kubernetes/configs_processor.py:35 | One comprehension fails exactly when some entry has no readable `'name'`. Otherwise it keeps the length and replaces exactly the entries with that name by `{name, value}`. |
| `ConfigsProcessor.ReplaceNamedFirstError` | Kubernetes/configs_processor.py:35 | A failing comprehension raises the error of the first entry without a readable `'name'`. |
| `ConfigsProcessor.RewriteEnv` | Kubernetes/configs_processor.py:35-37 | The three comprehensions fail exactly when an entry has no name. Otherwise they keep length and order and map each entry by the one-entry reference rewrite. Unmanaged entries come out unchanged. Managed entries become exactly `{name, value}`, with their other keys dropped. |
| `ConfigsProcessor.RewriteIdempotent` | Kubernetes/configs_processor.py:35-37 | Rewriting an already rewritten env list gives it back unchanged. |
| `ConfigsProcessor.RewriteAgreesAcrossManifests` | Kubernetes/configs_processor.py:35-43 | The workers' and the coordinator's env lists end with identical entries for each managed name. |
| `ConfigsProcessor.RewrittenEnvOf` | Kubernetes/configs_processor.py:34-37 | On success the env list could be read and iterated, and the result maps each entry by the one-entry reference rewrite, keeping length and order. On a list, the rewrite succeeds exactly when every entry has a readable `'name'`. |
| `ConfigsProcessor.EnvWriteBack` | Kubernetes/configs_processor.py:38 | Storing a list at the env path of a manifest whose env list could be read succeeds. The list reads back, and every path that parts from the env path is unchanged. |
| `ConfigsProcessor.ManagedPathsDiverge` | Kubernetes/configs_processor.py:33-34 | The `replicas` path and the env path part after `spec`. |
| `ConfigsProcessor.ProcessConfigs` | Kubernetes/configs_processor.py:29-44 | Succeeds exactly when the `replicas` assignment and both env rewrites succeed. Then the workers' `replicas` is `n_workers`, both env lists are the rewritten ones, and every path that parts from the written ones reads as before. |

## Left out

- gRPC channels, stubs, message-size options, the server and its thread pool (src/hogwild/coordinator.py:38-43, 54-66): outbound RPCs are entries in the ghost log `sent`, and a stub is identified by its address.
- The servicer's RPC handlers, which bump `wait_for_all_nodes_counter`, `ready_to_go_counter` and `epochs_done` and fill `all_delta_w` (hogwild/node.py is not part of this model). The counters start at 0 by assumption, and other code changes them through the public fields.
- Concurrency: `weight_lock`, interleavings between the handlers and the main loop, and the busy-wait spinning. Each busy-wait loop is a precondition of the step after it.
- `SVM.update_weights`, `loss` and `predict` (hogwild/svm.py is not part of this model): `update_weights` calls are recorded in the ghost log `updates`. The validation loss is a parameter of `RecordRound`.
- `EarlyStopping.stopping_criterion` (hogwild/EarlyStopping.py is not part of this model): its verdict is a parameter of `RecordRound`.
- `random.sample`: the validation indices are an input. The split lemmas assume they are distinct and in range, as the sample guarantees.
- CoordinatorData.SplitByIndex: the train comprehension of line 25 ranges over `range(len(targets))`, while the model ranges over the list being split. The two agree because the data loader returns `data` and `targets` of the same length. The model does not check that.
- Data ingestion, printing, timestamps and `time()`, the float accuracy divisions (lines 140, 144, 145) and writing `log.json` (lines 147-164). The model stops at the integer counts.
- `KeyboardInterrupt` handling (line 166-167).
- CoordinatorProtocol.PeerList: `list.remove` raising ValueError for an absent address is a precondition, because the script only removes addresses taken from the list itself.
- CoordinatorData.Dim: a data point is its dict's item list `(index, value)` in iteration order rather than a map; only the keys matter for the dimension.
- YAML/JSON reading and writing, argparse and the `pdb.set_trace()` call (Kubernetes/configs_processor.py:8-27, 46-54): the loaded documents are method parameters, and the method returns the documents that would be dumped.
- Documents.Assign: the nested in-place dict update is modelled on values, and the new root is returned. YAML anchors that share one node between two places in a document are not modelled. Dict key order, float scalars and negative list indices are not modelled either; the script uses only index 0.
