# Positron plots and the VS Code pytest plugin, modelled in Dafny

This project models two backend Python components.

- **Plots.** The kernel side of a frontend plot in the Positron IPython kernel (`positron_ipykernel/plots.py`).
  - `Plot` keeps one `closed` flag and talks to the frontend through a comm. The comm is modelled as the log of messages it sends: comm-open, comm-close, `Show` and `Update` events, and render results.
  - `PlotsService` keeps the list of plots. `create_plot` appends to it; `shutdown` closes every plot and empties it.
  - A replay of the message log (`Replay`) is the partner of the plot's state. Every method keeps the log consistent with `closed`. Lemmas show that comm-open and comm-close balance, and that `Show`/`Update` events are only ever sent on an open comm.
- **The pytest plugin.** The VS Code pytest plugin (`vscode_pytest/__init__.py`):
  - absolute test ids (`get_absolute_test_id`) and the id of a parameterized function node;
  - the skip checks over markers and the chain of enclosing classes;
  - the mapping of reports, exceptions and exit codes to outcomes and payloads;
  - the report-at-most-once discipline of `collected_tests_so_far`;
  - the construction of the discovery tree by `build_test_tree` and `build_nested_folders`.

  pytest items are abstracted as a datatype (`Items.TestItem`). An item carries:
  - its node id, name, path (a sequence of path segments) and line number;
  - its own markers;
  - its enclosing classes, innermost first;
  - the first non-class ancestor: a file, or none;
  - whether it is parameterized, and its original name.

Modules:
- `Wrappers`: Option, duplicate-freedom and prefixes.
- `Paths`: pathlib paths as segment sequences.
- `TestIds`: splitting on `::`, absolute ids, parameterized names, the symlink rewrite of `get_node_path`.
- `Items`: the abstract pytest items.
- `Skips`: `check_skipped_condition` and `check_skipped_wrapper`.
- `Outcomes`: `TestOutcome`, the report and exception mapping, `ERROR_MESSAGE_CONST`.
- `TestTree`: the tree builder.
- `Reporting`: the plugin's global state and its hooks.
- `Plots`.

The tree builder in `build_test_tree` keeps every node with children (file, folder, class, parameterized function) in a lookup dictionary and keeps extending it after it has been linked into its parent. The model keeps those dictionaries as maps in a `Forest`. A parent holds each child by a reference: a test by its position among the tests created, any other node by its key. A node extended later is therefore seen extended from every parent that holds it, as the shared Python dictionaries are.
- `Grows` is the partner of every step of the builder: nothing is ever removed or replaced, and children are only appended.
- `Placed` says where one item's test ends up.
- `TreeOk` is what the whole build guarantees.

The create_* builders (`CreateTestNode`, `CreateFileNode`, `CreateFolderNode`, `CreateClassNode`, `CreateFunctionNode`, `CreateSessionNode`) build node values. Their contracts, or the lemma `TestNodeFields` for the test node, state every field.

## Model

| member | source | states |
|---|---|---|
| Plots.MimeType | extensions/positron-python/python_files/positron/positron_ipykernel/plots.py:21-26 | a MIME type exists exactly for the formats png, svg, pdf and jpeg |
| Plots.OpenCloseBalance | extensions/positron-python/python_files/positron/positron_ipykernel/plots.py:61-78 | in every consistent message log, comm-opens and comm-closes balance: one more open than close while the comm is open, as many of each once it is closed |
| Plots.EventsOnlyWhileOpen | extensions/positron-python/python_files/positron/positron_ipykernel/plots.py:80-98 | in every consistent message log, each Show or Update event is sent at a point where the comm is open |
| Plots.Plot.constructor | extensions/positron-python/python_files/positron/positron_ipykernel/plots.py:41-52 | a new plot is open and its comm has sent exactly one comm-open |
| Plots.Plot.Open | extensions/positron-python/python_files/positron/positron_ipykernel/plots.py:61-69 | afterwards the plot is open; one comm-open is sent if it was closed, nothing if it was already open; the log stays consistent with the state |
| Plots.Plot.Close | extensions/positron-python/python_files/positron/positron_ipykernel/plots.py:71-78 | afterwards the plot is closed; one comm-close is sent if it was open, nothing if it was already closed (idempotent) |
| Plots.Plot.Show | extensions/positron-python/python_files/positron/positron_ipykernel/plots.py:80-88 | afterwards the plot is open; exactly one message is sent: a Show event if it was open, a comm-open and no event if it was closed |
| Plots.Plot.Update | extensions/positron-python/python_files/positron/positron_ipykernel/plots.py:90-98 | afterwards the plot is open; exactly one message is sent: an Update event if it was open, a comm-open and no event if it was closed |
| Plots.Plot.HandleRender | extensions/positron-python/python_files/positron/positron_ipykernel/plots.py:112-122 | a render result with the format's MIME type is sent exactly when the format is known; otherwise nothing is sent; the closed flag is unchanged |
| Plots.Plot.HandleClose | extensions/positron-python/python_files/positron/positron_ipykernel/plots.py:124-125 | a close from the frontend has exactly the effect of `close` |
| Plots.FirstIndex | extensions/positron-python/python_files/positron/positron_ipykernel/plots.py:175 | the position of the first occurrence of the plot: no earlier element is the plot, and the position is inside the list exactly when the plot is present |
| Plots.RemoveFirst | extensions/positron-python/python_files/positron/positron_ipykernel/plots.py:175 | removing the plot at the head of the list leaves the tail |
| Plots.RemoveFirstDropsFirstOccurrence | extensions/positron-python/python_files/positron/positron_ipykernel/plots.py:175 | `list.remove` drops exactly the first occurrence of the plot: what remains is the list before that occurrence followed by the list after it; a list without the plot is left unchanged |
| Plots.PlotsService.constructor | extensions/positron-python/python_files/positron/positron_ipykernel/plots.py:148-152 | the registry starts empty |
| Plots.PlotsService.CreatePlot | extensions/positron-python/python_files/positron/positron_ipykernel/plots.py:154-167 | exactly one new, open plot whose only message is its comm-open is appended at the end; every earlier plot keeps its state and log |
| Plots.PlotsService.Shutdown | extensions/positron-python/python_files/positron/positron_ipykernel/plots.py:169-175 | every plot registered before is closed, with one comm-close sent for each one that was open and none for the others; the registry is empty |
| Plots.PlotsService.Retire | extensions/positron-python/python_files/positron/positron_ipykernel/plots.py:174-175 | one turn of `shutdown` on the plot at the head of the registry: the plot is closed, with one comm-close sent if it was open, and the registry loses exactly its head |
| TestIds.Split | extensions/positron-python/python_files/vscode_pytest/__init__.py:180 | `split("::")` has at least one part; the first part is the id up to its first `::`; no part contains `::`; joining the parts with `::` gives the id back |
| TestIds.AbsoluteTestIdReplacesFirstSegment | extensions/positron-python/python_files/vscode_pytest/__init__.py:170-182 | the absolute id is the path string followed by everything of the pytest id from its first `::` on, so the later segments are kept in order |
| TestIds.AbsoluteTestIdWithoutSeparator | extensions/positron-python/python_files/vscode_pytest/__init__.py:180-181 | an id without `::` maps to the path string alone |
| TestIds.FunctionNodeId | extensions/positron-python/python_files/vscode_pytest/__init__.py:608-626 | a function node's id is the test id's first `::`-segment (which contains no `::`), then `::`, then the function name |
| TestIds.SplitParameterized | extensions/positron-python/python_files/vscode_pytest/__init__.py:441 | `split("[", 1)` fails exactly when the name has no `[`; otherwise the two parts rebuild the name around its first `[` |
| TestIds.ParameterizedTestName | extensions/positron-python/python_files/vscode_pytest/__init__.py:441-442 | a parameterized test is renamed to the suffix of its name that starts at its first `[` |
| TestIds.NodePath | extensions/positron-python/python_files/vscode_pytest/__init__.py:701-722 | without a symlink root, or for the session, the path is unchanged; otherwise a path under the symlink root is returned as it is, and one under the working directory only becomes the symlink root followed by the path's part below the working directory; a path under neither has no result |
| TestIds.NodePathRewrite | extensions/positron-python/python_files/vscode_pytest/__init__.py:706-716 | the rewrite of a path under the working directory lands under the symlink root, and rewriting that result again leaves it unchanged |
| Skips.CheckSkippedCondition | extensions/positron-python/python_files/vscode_pytest/__init__.py:332-347 | true exactly when some marker is `skip`, or is `skipif` with at least one truthy argument |
| Skips.CheckSkippedWrapper | extensions/positron-python/python_files/vscode_pytest/__init__.py:312-329 | true exactly when the item or one of its enclosing classes has a skipping marker; the file's markers are not consulted |
| Outcomes.CreateTestOutcome | extensions/positron-python/python_files/vscode_pytest/__init__.py:208-222 | the outcome carries the given id, outcome, message and traceback, and `subtest` is always None whatever is passed |
| Outcomes.CallOutcome | extensions/positron-python/python_files/vscode_pytest/__init__.py:245-253 | passed maps to success, failed to failure, anything else to skipped; a message is present exactly for a failure, and it is the long report text |
| Outcomes.ExceptionOutcome | extensions/positron-python/python_files/vscode_pytest/__init__.py:133-135 | an exception during execution is a failure exactly when it is an AssertionError, and an error otherwise |
| Outcomes.ExitCodeMessage | extensions/positron-python/python_files/vscode_pytest/__init__.py:278-283 | a message exists exactly for the exit codes 2 to 5 |
| Outcomes.ExitStatusError | extensions/positron-python/python_files/vscode_pytest/__init__.py:403-405 | the exit error text exists exactly for the codes 2 to 5; for any other code the lookup fails |
| TestTree.NatToStringDecimal | extensions/positron-python/python_files/vscode_pytest/__init__.py:563-565 | `str(n)` is a non-empty string of decimal digits without a leading zero that denotes `n` |
| TestTree.TestNodeFields | extensions/positron-python/python_files/vscode_pytest/__init__.py:555-574 | create_test_node keeps the item's name and path; its id and run id are both the path followed by the pytest id from its first `::` on; its line number is the 1-based line in decimal, or empty exactly when the line is unknown |
| TestTree.CreateSessionNode | extensions/positron-python/python_files/vscode_pytest/__init__.py:577-590 | a childless folder node named after the session folder, with the session path as its path and id |
| TestTree.CreateClassNode | extensions/positron-python/python_files/vscode_pytest/__init__.py:593-605 | a childless class node with the class's name and path, and the class's pytest id as its id |
| TestTree.CreateFunctionNode | extensions/positron-python/python_files/vscode_pytest/__init__.py:608-626 | a childless function node with the function's name and the test's path; its id is the test id's first `::`-segment, which has no `::`, then `::`, then the name |
| TestTree.CreateFileNode | extensions/positron-python/python_files/vscode_pytest/__init__.py:629-642 | a childless file node named after the file, with the file's path as its path and id |
| TestTree.CreateFolderNode | extensions/positron-python/python_files/vscode_pytest/__init__.py:645-657 | a childless folder node named after the folder's last segment, with the folder's path as its path and id |
| TestTree.FunctionKeySplitsName | extensions/positron-python/python_files/vscode_pytest/__init__.py:441-443 | function_nodes_dict's key for a name with a `[` is the path, `::` and the part of the name before the first `[`; that part has no `[`, and followed by the renamed test's name it gives the name back; a name without `[` has no key |
| TestTree.TestForName | extensions/positron-python/python_files/vscode_pytest/__init__.py:437-442 | an item's test node is the one create_test_node makes except for its name; a parameterized test's name starts with `[` and is exactly what the function key leaves out of the item's name; any other test keeps its name |
| TestTree.ItemOutcomes | extensions/positron-python/python_files/vscode_pytest/__init__.py:436-508 | the loop raises on a parameterized test whose name cannot be split at a `[` or that has no original name, and on a plain test outside classes with no parent; it breaks, and does not raise, on a test in classes the outermost of which has no parent; it notes at most one message and only on those items: the break always notes "Test class None has no parent", and of the raises only the missing original name notes a message |
| TestTree.NewTest | extensions/positron-python/python_files/vscode_pytest/__init__.py:437 | a new test is appended after the existing ones and is referred to by its position; no node changes; a forest without duplicate children stays so, and no node holds the new test |
| TestTree.FileNodeFor | extensions/positron-python/python_files/vscode_pytest/__init__.py:503-507 | file_nodes_dict is memoised: an existing file node is reused unchanged; a missing one is created from the path and added at the end of the iteration order; the file table gains exactly that key |
| TestTree.FolderNodeFor | extensions/positron-python/python_files/vscode_pytest/__init__.py:543-547 | at most one folder node per path: an existing folder node is reused unchanged; a missing one is created from the path |
| TestTree.ClassNodeFor | extensions/positron-python/python_files/vscode_pytest/__init__.py:475-479 | at most one class node per class node id: an existing class node is reused unchanged; a missing one is created from the class |
| TestTree.FunctionNodeFor | extensions/positron-python/python_files/vscode_pytest/__init__.py:444-456 | at most one function node per key: an existing function node is reused unchanged; a missing one is created from the original name, path and test id |
| TestTree.AppendChild | extensions/positron-python/python_files/vscode_pytest/__init__.py:508 | an unconditional append: the parent's children become the old children plus the child; every other node stays as it was; appending an existing test or node the parent does not hold yet keeps every child list free of duplicates |
| TestTree.AddChildIfAbsent | extensions/positron-python/python_files/vscode_pytest/__init__.py:548-549 | the child is held afterwards; nothing changes when it was already held; otherwise it is appended at the end; a child list without duplicates stays without duplicates |
| TestTree.BuildNestedFolders | extensions/positron-python/python_files/vscode_pytest/__init__.py:524-552 | every folder from the file's own folder up to the one just below the session holds the node below it; the node returned is the one just below the session; only folders strictly between the session and the file are created; nothing is removed; no child list gains a duplicate |
| TestTree.LinkFolder | extensions/positron-python/python_files/vscode_pytest/__init__.py:542-551 | one turn of the walk at a folder: once the folder is looked up or created and holds the node below it, every folder from it down to the file's own folder holds the next node down, nothing placed before is lost, and the only folder it may create lies strictly between the session and the file |
| TestTree.AddParameterized | extensions/positron-python/python_files/vscode_pytest/__init__.py:438-468 | the renamed test is appended to the function node kept under the item's key; when the test sits directly in its file, that file holds the function node; only the item's file may be new; no child list gains a duplicate |
| TestTree.AttachFunction | extensions/positron-python/python_files/vscode_pytest/__init__.py:458-466 | for a parameterized test directly in its file, the file (looked up or created) comes to hold the function node once; nothing placed before is lost, the item's file is the only new file, and the table invariants are kept |
| TestTree.NestInClasses | extensions/positron-python/python_files/vscode_pytest/__init__.py:469-485 | each enclosing class, innermost first, holds the node just below it: the test or its function node, then the previous class; files, folders and tests are untouched; no child list gains a duplicate |
| TestTree.NestStep | extensions/positron-python/python_files/vscode_pytest/__init__.py:474-484 | one turn of the class loop: the class is looked up or created and holds the node below it once, and the classes before it keep their children |
| TestTree.AddItem | extensions/positron-python/python_files/vscode_pytest/__init__.py:436-508 | one turn of the item loop: it raises exactly on the items ItemFails picks out and breaks exactly on those ItemStops picks out, with exactly the errors ItemNotes gives; otherwise it appends the item's test and places it under its function, classes and file; no child list gains a duplicate |
| TestTree.ItemTurn | extensions/positron-python/python_files/vscode_pytest/__init__.py:436-508 | one turn of the item loop keeps the loop's invariant: the tests of the items so far are in order, placed, with their files and without duplicate children, and one more item is placed when the loop carries on |
| TestTree.AttachOutermostClass | extensions/positron-python/python_files/vscode_pytest/__init__.py:492-500 | for a test inside classes, the item's file (looked up or created) comes to hold the outermost class, so the test is placed under its function, classes and file; nothing placed before is lost, the item's file is the only new file, and the table invariants are kept |
| TestTree.AttachTest | extensions/positron-python/python_files/vscode_pytest/__init__.py:501-508 | for a plain test directly in its file, the file (looked up or created) comes to hold the test, so the test is placed; nothing placed before is lost, the item's file is the only new file, and the table invariants are kept |
| TestTree.FirstHalt | extensions/positron-python/python_files/vscode_pytest/__init__.py:436-508 | the position of the first item on which the loop raises or breaks: every earlier item lets the loop carry on |
| TestTree.PlacedGrows | extensions/positron-python/python_files/vscode_pytest/__init__.py:436-520 | a test placed under its function, classes and file stays placed whatever the builder adds later |
| TestTree.AddItems | extensions/positron-python/python_files/vscode_pytest/__init__.py:436-508 | the loop raises exactly when the first halting item makes it raise; otherwise every item before it has its test, in order and placed, every file node belongs to one of them, and no node holds a child twice |
| TestTree.LinkFolders | extensions/positron-python/python_files/vscode_pytest/__init__.py:509-520 | every file is linked up through its folders to a node just below the session; session_children_dict holds each such node once, under its own non-empty id; its entries come in the order in which the files first reach them, and every file walked before an entry's file reached an earlier entry |
| TestTree.LinkFile | extensions/positron-python/python_files/vscode_pytest/__init__.py:510-519 | one turn of the loop over file_nodes_dict: the file is linked up to the session, and its top node is added to session_children_dict exactly when the node's id is new, after the entries of the earlier files |
| TestTree.LinkDone | extensions/positron-python/python_files/vscode_pytest/__init__.py:510-520 | once every file is walked, session_children_dict's keys are its values' ids, its values are distinct nodes with non-empty ids, and every file reaches one of them |
| TestTree.BuildTestTree | extensions/positron-python/python_files/vscode_pytest/__init__.py:419-521 | it raises exactly on the items Raises picks out and records exactly HaltNotes; otherwise it returns a session node named after the session folder (with the symlink root as path and id when set) and a tree satisfying TreeOk: every test placed, every folder linked, the session's children the distinct nodes just below it with non-empty ids in first-seen order, and no node holding a child twice |
| Reporting.StatusOf | extensions/positron-python/python_files/vscode_pytest/__init__.py:759 | a discovery payload's status is success exactly when no error was collected |
| Reporting.ErrorField | extensions/positron-python/python_files/vscode_pytest/__init__.py:744-745 | an execution payload carries the errors exactly when some were collected |
| Reporting.DedupNoDup | extensions/positron-python/python_files/vscode_pytest/__init__.py:260-261 | the ids that pass the collected_tests_so_far check never repeat |
| Reporting.DedupElements | extensions/positron-python/python_files/vscode_pytest/__init__.py:260-261 | every id for which a report is attempted is reported, and no other |
| Reporting.DedupOfDistinct | extensions/positron-python/python_files/vscode_pytest/__init__.py:260-261 | attempts with distinct ids are all reported, in order |
| Reporting.DedupRepeat | extensions/positron-python/python_files/vscode_pytest/__init__.py:137-138 | a report attempted again for an id already attempted reports nothing new |
| Reporting.ReportedAtMostOnce | extensions/positron-python/python_files/vscode_pytest/__init__.py:294-295 | in any state where the plugin's invariant holds, the test results sent carry each absolute id at most once, and carry exactly the ids attempted |
| Reporting.Plugin.constructor | extensions/positron-python/python_files/vscode_pytest/__init__.py:48-53 | ERRORS, map_id_to_path, collected_tests_so_far and the sent payloads all start empty |
| Reporting.Plugin.Send | extensions/positron-python/python_files/vscode_pytest/__init__.py:777-800 | a payload is sent by appending it, and only it, to the log of payloads; the errors and the reporting state are unchanged |
| Reporting.Plugin.ReportCwd | extensions/positron-python/python_files/vscode_pytest/__init__.py:364-367 | the reporting directory is the symlink root when one is set, the working directory otherwise |
| Reporting.Plugin.Report | extensions/positron-python/python_files/vscode_pytest/__init__.py:260-274 | an outcome is sent, with status success, only when its id is not yet collected, and the id is then collected; the invariant that the ids sent are exactly the collected ids is kept |
| Reporting.Plugin.InternalError | extensions/positron-python/python_files/vscode_pytest/__init__.py:102-110 | the exception text followed by the log hint is appended to the errors; nothing is sent |
| Reporting.Plugin.KeyboardInterrupt | extensions/positron-python/python_files/vscode_pytest/__init__.py:185-192 | the exception text followed by the log hint is appended to the errors; nothing is sent |
| Reporting.Plugin.ExceptionInteract | extensions/positron-python/python_files/vscode_pytest/__init__.py:113-152 | in discovery, records the exception text, or nothing for a SkipTest behind a skipped report, or the long report text for an AssertionError or missing exception; in execution, sends a failure or error outcome, at most once per absolute id |
| Reporting.Plugin.ReportTestStatus | extensions/positron-python/python_files/vscode_pytest/__init__.py:232-275 | only call-phase reports are sent, at most once per absolute id; the id uses the recorded path of the test, or the reporting directory when none is recorded |
| Reporting.Plugin.RuntestProtocol | extensions/positron-python/python_files/vscode_pytest/__init__.py:286-309 | records the item's path under its pytest id; a skipped item is reported as skipped, with no message, at most once per absolute id |
| Reporting.Plugin.SessionFinish | extensions/positron-python/python_files/vscode_pytest/__init__.py:350-416 | it raises exactly for an execution run whose exit code is outside 0 to 5, and then records and sends nothing; every other run ends with the end-of-transmission payload for its command type; a discovery run sends exactly three payloads when the exit code is not 0, 1 or 5 (the error node, the tree or error node of build_test_tree, the end of transmission) and exactly the last two otherwise; an execution run sends the exit error only for the codes 2 to 5 |
| Reporting.Plugin.ErrorsAfterBuild | extensions/positron-python/python_files/vscode_pytest/__init__.py:379-390 | when build_test_tree raises, the error list is non-empty, so the error node goes out with status error |
| Reporting.Plugin.FinishDiscovery | extensions/positron-python/python_files/vscode_pytest/__init__.py:369-416 | an error node is posted first unless the exit code is 0, 1 or 5; then exactly one payload with the tree, or an error node when the build raises; then the end-of-transmission payload, and nothing else |
| Reporting.Plugin.PostTree | extensions/positron-python/python_files/vscode_pytest/__init__.py:379-398 | records build_test_tree's notes, and the traceback when it raises; posts the session tree satisfying TreeOk, or the error node, with the status the errors dictate |
| Reporting.Plugin.FinishExecution | extensions/positron-python/python_files/vscode_pytest/__init__.py:399-416 | exit codes 0 and 1 record nothing and send only the end-of-transmission payload; 2 to 5 record the exit error, post an execution payload with status error, then the end of transmission; any other code raises before recording or sending anything |

## Left out

- Comm transport, rendering and encoding: `PositronComm`, the `Renderer` protocol, matplotlib, `base64` and `uuid` are foreign code. A comm is only the log of the messages it sends, and `HandleRender` takes the encoded image as a parameter.
- `Plot._handle_msg`: its dispatch on message classes wraps code that is not part of this model.
- Plots.Plot.HandleRender: the render call that precedes the MIME lookup is not modelled, so its side effects on an unknown format are not captured.
- Pipe and socket I/O: `send_post_request`, `execution_post`, `post_response`, the pipe manager, JSON encoding and stderr printing. Sending is appending a payload to the plugin's `sent` log.
- The failure of `send_post_request` when the pipe variable is unset is not modelled.
- Filesystem-dependent symlink handling (`os.path.exists`, `islink`, `realpath`, `has_symlink_parent`, the `--rootdir` check) is left out. Only the pure prefix rewrite of `get_node_path` is modelled (`TestIds.NodePath`). The working directory and the symlink root are parameters.
- Items carry their path as `get_node_path` has already computed it.
- Items.Anchor: the first non-class ancestor of a test is either a `pytest.File` or missing. A parent collector that is neither a class nor a file cannot be expressed. The source treats such a parent as a file in the class and plain branches, and does not attach a parameterized test's function node to it. The model leaves that case out.
- Paths.PathStr: every path is rendered as an absolute POSIX string, with `/` separators and `/` for the root. On Windows `os.fspath` gives drive-letter paths with backslashes, and the ids built from them change with it. That rendering is not modelled.
- pytest hook registration, `hookwrapper` and `yield`, and the real pytest `Item`, `Class`, `File` and `Session` objects are replaced by the `Items.TestItem` datatype.
- The traceback text of `traceback.format_exc` is a parameter of `SessionFinish`.
- The `str(call)` test for `SkipTest` is a boolean parameter of `ExceptionInteract`.
- `IS_DISCOVERY`, `SYMLINK_PATH` and the working directory are constants of `Plugin`, set when it is constructed. The hook that sets them (`pytest_load_initial_conftests`) is not part of this model.
- TestTree.BuildTestTree: Python's `not in` on children lists compares dictionaries by value. The model compares references, that is node identity. Two distinct nodes with equal contents therefore count as different children here.
- TestTree.BuildTestTree: file_nodes_dict is keyed by the pytest file object. The model keys it by the file's path, so two file objects with the same path are one file node.
- TestTree.BuildTestTree: requires that every file it reaches lies strictly below the session folder. Otherwise `build_nested_folders` would walk past the root forever, because the parent of the root is the root.
- Reporting.Plugin.ExceptionInteract: requires that an execution-time call carries an exception, since the source reads its type name unconditionally.
- The "no session node was created" error cannot arise: `build_test_tree` always returns a non-empty dictionary.
- Reporting.Plugin.SessionFinish: the exit error is formatted with a single digit for the code. Only the codes 2 to 5 reach the format, so this covers every case the source formats.
