# auto-extract: a Dafny model of the dispatch core

auto-extract is a small daemon. It watches directories and routes each new
file by rule: a rule tests the file's base name against a regular expression
and then runs a named task (looked up in the configuration's task table), an
inline task, or both. A task copies the file into a directory, moves it there,
or "tries to unpack" it.

This project models the decision logic of `src/main.rs` and proves what it
does:

- `Base`: the shared vocabulary. It holds the failures (one constructor per
  kind of panic in the modelled code: an unwrap, or the index at line 100 of
  `src/main.rs`), the abstract filesystem (`map<Path, Node>` with
  `Node = File(bytes) | Dir`), and `Env`. `Env` stands for the foreign
  collaborators: whether a pattern compiles, whether a compiled pattern matches
  a name, `Path::join`, and `file_name().to_str()` as a partial `baseName`.
- `Config`: `RunConfig`, `Rule` and `TaskConf`, as they are declared.
- `Tasks`: `ExecuteTask`, the match over the task kind. Each kind's effect on
  the abstract filesystem and its failure condition are stated exactly.
- `Dispatch`: the decision for one item of a watcher's channel (`Plan`), the
  sequential run of the chosen tasks (`RunTasks`), and their composition
  (`Step`).
- `Watch`: the receive loop of one watcher as a method. It is proved equal to
  a fold of `Step` over the items received (`RunEvents`), together with
  lemmas about that fold.
- `Startup`: the pattern pre-check and the fan-out to one watcher per rule.

A panic ends the whole process. The watchers are plain futures joined inside
the main task, so a panic in one of them unwinds the process. A `Trace`
therefore records the filesystem as the tasks before the panic left it, the
effects logged, and the panic itself. Nothing after a panic is processed.

Several behaviours of the code are easy to misread. The model follows the
code:

- Only `Create` events count; `Modify` events only print.
- There is no debounce. `debounce_time` is never read.
- When a rule has both a named and an inline task, both run, the named one
  first.
- A named task missing from the table panics. It is not a no-op.
- An event whose first path has no UTF-8 base name panics. It is not skipped.
- A Move is one rename with no copy-and-delete fallback.
- A task failure panics the process. It is not isolated to one dispatch.
- TryUnpack never extracts anything. The archive value is built and dropped,
  so TryUnpack never changes the filesystem.

## Model

| member | source | states |
|---|---|---|
| Tasks.ExecuteTask | src/main.rs:124-146 | Copy succeeds exactly when the source is a file and `join(target, name)` is not a directory. The destination then holds the source's bytes, the source is kept, and nothing else changes. Move succeeds exactly when the rename is not refused. The destination then gets the node, the source is gone, and nothing else changes. TryUnpack never changes the filesystem. It skips without opening when `join(pwd, name)` is a directory, and otherwise fails only when the source is absent. Each failure names its call. |
| Tasks.MoveIsCopyThenRemove | src/main.rs:126-136 | When the copy is possible and the destination differs from the source, Move yields exactly Copy's filesystem without the source. |
| Tasks.CopyIsIdempotent | src/main.rs:126-130 | Copying again after a successful copy changes nothing more and logs the same effect. |
| Tasks.MoveIsNotRepeatable | src/main.rs:131-136 | After a successful Move to a different path, the same Move panics with a rename failure. There is no fallback. |
| Dispatch.Plan | src/main.rs:94-114 | A non-create item plans nothing. A create event with no path, or whose first path has no base name, panics. A pattern that does not compile panics. A non-matching name plans nothing. A matching name panics exactly when the named task is missing from the table. Otherwise a matching name runs one action per present task, the named task first and the inline task last, and every action uses the first path and its base name. |
| Dispatch.RunTasks | src/main.rs:107-113 | The tasks run one after the other and the first panic stops the rest. The log has at most one effect per task, and the run is complete, with one effect per task, exactly when it did not panic. RunTasksAppend, RunOneTask, RunTasksLog, RunTasksFrame and RunTasksPanicsOnlyInTasks state the rest. |
| Dispatch.RunTasksAppend | src/main.rs:107-113 | Running two sequences of actions in turn is running them together. The second starts from the filesystem the first left, unless the first panicked. |
| Dispatch.RunOneTask | src/main.rs:109 | A run of one action is exactly that task's execution on the filesystem: its new filesystem and effect, or its panic. |
| Dispatch.RunTasksLog | src/main.rs:107-113 | The tasks run in order: each effect in the log is produced by the action in the same position. |
| Dispatch.RunTasksFrame | src/main.rs:124-146 | A run of tasks changes no path other than the sources and destinations of its actions. |
| Dispatch.RunTasksPanicsOnlyInTasks | src/main.rs:124-146 | A run of tasks panics only with a copy, rename or open failure. |
| Dispatch.Step | src/main.rs:94-117 | One pass of the loop body. Any other event kind, and any watch error, leaves the filesystem unchanged and logs nothing. A create event with no path, a first path with no UTF-8 base name, and a pattern that does not compile each panic with their own failure before any task runs. A name the pattern rejects is skipped with no effect and no panic. One item runs at most two tasks. A step that changes the filesystem or logs an effect had a create event whose first path's base name the pattern matches. StepRunsNamedThenInline, OnlyFirstPathMatters, MissingNamedTaskPanics, BothTasksRunNamedFirst, NamedPanicSkipsInline, StepFrame, CopyRuleDeliversFile and MoveThenCopyPanics state the rest. |
| Dispatch.StepRunsNamedThenInline | src/main.rs:107-113 | For a create event whose base name matches, the step executes the named task on the filesystem, and then the inline task on the filesystem the named task left, unless the named task panicked. A rule with one task runs just that task, and a rule with none changes nothing. |
| Dispatch.CopyRuleDeliversFile | src/main.rs:100-130 | Under a rule whose only task copies, a matching create event for a file does not panic. It logs one copy, puts the file's bytes at `join(target, name)`, keeps the source, and changes nothing else. |
| Dispatch.MoveThenCopyPanics | src/main.rs:107-135 | The inline task sees the named task's result. After a named Move of the file to another path, an inline Copy of the same path panics with a copy failure, the source is gone, and only the move is logged. |
| Dispatch.OnlyFirstPathMatters | src/main.rs:100-103 | Two create events with the same first path have the same effect, whatever their other paths. |
| Dispatch.MissingNamedTaskPanics | src/main.rs:107-108 | A matching name whose named task is missing from the table panics before any task runs, so the inline task does not run and nothing changes. |
| Dispatch.BothTasksRunNamedFirst | src/main.rs:107-113 | With both tasks present, a step that does not panic logs exactly two effects: the named task's first, then the inline task's. |
| Dispatch.NamedPanicSkipsInline | src/main.rs:107-112 | When the named task panics, the step ends with that panic, the filesystem is unchanged, and the inline task does not run. |
| Dispatch.StepFrame | src/main.rs:100-113 | A step changes nothing except the event's first path and the destinations the rule's tasks build from its base name. |
| Watch.WatchTarget | src/main.rs:81-122 | A refused registration ends the watcher with no effect. Otherwise the receive loop's result is exactly the fold of the per-item step over the items, stopping at the first panic. The fold assumes that nothing outside the daemon changes the filesystem between items (see "## Left out"). |
| Watch.RunEvents | src/main.rs:92-119 | The receive loop as a fold over the items received, which stops at the first panic. Each item runs at most two tasks. RunEventsAppend, PanicIsFinal, NoCreateNoEffect and ValidPatternNeverPanics state the rest. |
| Watch.RunEventsAppend | src/main.rs:92-119 | Processing two batches of items in turn is the same as processing them together. |
| Watch.PanicIsFinal | src/main.rs:92-119 | After a panic, later items have no effect. |
| Watch.NoCreateNoEffect | src/main.rs:92-119 | A stream with no create event changes nothing and logs nothing. |
| Watch.ValidPatternNeverPanics | src/main.rs:102 | When a rule's pattern compiles, no stream of items makes the per-event compilation panic. |
| Startup.Start | src/main.rs:55-64 | Startup succeeds exactly when every rule's pattern compiles. It then yields one watcher per rule, in rule order, each with its rule's directory, the rule and the configuration. Otherwise it fails on the first rule whose pattern does not compile, before any watcher has run. |
| Startup.StartedWatchersNeverPanicOnPattern | src/main.rs:55-64 | Because of the pre-check, no watcher of a started configuration ever panics on its pattern. |

## Left out

- Loading `config.yml` (file read, UTF-8 decoding, YAML parsing) is not modelled. The model starts from the loaded configuration value.
- The `notify` watcher, the channel between its callback and the loop, and `block_on` are abstracted. They appear only as the sequence of items a watcher receives and a flag saying whether registration succeeded.
- Concurrency among watchers is not modelled. `join_all` interleaves the watchers on one shared filesystem. The model runs one watcher's items as a fold, and it does not model interleavings across watchers.
- The regular-expression engine is taken as two given predicates in `Env`: `validPattern` and `matches`.
- `Path::join` and `file_name().to_str()` are taken as given functions in `Env`. Their own properties are not modelled.
- Watch.WatchTarget: the fold assumes that nothing outside the daemon changes the filesystem between items. In the running daemon, a create event is caused by someone else writing into the watched directory, and the model does not include that write. A copy or move of a file that the event itself announces therefore fails in the model unless the file is already in the starting filesystem.
- ZIP parsing is not modelled. Its result is discarded in the source, so the model records only that the source was opened.
- Real `std::fs` behaviour is not modelled beyond the abstract map: permissions, missing parent directories, partial writes and cross-device renames are out of scope.
- Tasks.ExecuteTask: a copy onto its own source path is modelled as leaving the file unchanged. The standard library truncates the file in that case, and this is not modelled.
- Tasks.ExecuteTask: renaming a directory onto an existing directory is modelled as success, because directory emptiness is not modelled. Renaming a directory moves only its own entry, because paths are opaque and its children cannot be found.
- `priority` and `debounce_time` are declared but never read. They are kept in the data model, and no behaviour depends on them.
- Logging with `println!` is not modelled.
