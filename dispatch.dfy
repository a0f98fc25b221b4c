/** The decision a watcher takes for one item received from its channel
    (src/main.rs:92-118), and the sequential run of the tasks it decides on. */
module Dispatch {
  import opened Base
  import opened Config
  import opened Tasks

  /** The kinds of filesystem event the watcher delivers; the sub-kinds carry
      nothing the core looks at. */
  datatype EventKind = Any | Access | Create | Modify | Remove | Other

  datatype Event = Event(kind: EventKind, paths: seq<Path>)

  /** One item of the watcher's channel: an event or a watch error. */
  datatype Notification = Delivered(event: Event) | WatchError

  /** One task to run on one file. */
  datatype Action = Action(task: TaskConf, fileName: string, path: Path)

  /** The filesystem and the effects logged so far, and the failure that
      ended the process, if any. Work done before a panic stays done. */
  datatype Trace = Trace(fs: FileSystem, log: seq<Effect>, panic: Option<Failure>)

  /** `u` run after `t`: the effects of both, and the state and panic of `u`. */
  function Then(t: Trace, u: Trace): Trace
  {
    Trace(u.fs, t.log + u.log, u.panic)
  }

  lemma ThenIsAssociative(t: Trace, u: Trace, v: Trace)
    ensures Then(Then(t, u), v) == Then(t, Then(u, v))
  {
  }

  /** The outcome of one task as a trace: its filesystem and effect, or its
      panic on the filesystem it started from. */
  function Lift(fs: FileSystem, r: Result<Executed>): Trace
  {
    match r
    case Ok(done) => Trace(done.fs, [done.effect], None)
    case Fail(e) => Trace(fs, [], Some(e))
  }

  predicate IsCreate(n: Notification)
  {
    n.Delivered? && n.event.kind == Create
  }

  /** The base name a create event is judged by: that of its first path. */
  predicate NamedCreate(env: Env, n: Notification, name: string)
  {
    IsCreate(n) && |n.event.paths| > 0 && env.baseName(n.event.paths[0]) == Some(name)
  }

  /** Which tasks one notification sets off, in order, or the panic it
      causes before any task runs. */
  function Plan(env: Env, config: RunConfig, rule: Rule, n: Notification): (r: Result<seq<Action>>)
    // anything but a create event (another kind, a watch error) only prints
    ensures !IsCreate(n) ==> r == Ok([])
    // a create event must name a path with a base name, or the process panics
    ensures IsCreate(n) && n.event.paths == [] ==> r == Fail(NoPaths)
    ensures IsCreate(n) && |n.event.paths| > 0 && env.baseName(n.event.paths[0]).None? ==>
              r == Fail(NoFileName(n.event.paths[0]))
    ensures forall name :: NamedCreate(env, n, name) ==>
              // the pattern is compiled again here, and must compile
              && (!env.validPattern(rule.test) ==> r == Fail(InvalidPattern(rule.test)))
              // a base name the pattern rejects sets off nothing
              && (env.validPattern(rule.test) && !env.matches(rule.test, name) ==> r == Ok([]))
              // a matching name panics exactly when the named task is not in the table
              && (env.validPattern(rule.test) && env.matches(rule.test, name) ==>
                    && (r.Fail? <==> rule.emit.Some? && rule.emit.value !in config.tasks)
                    && (r.Fail? ==> r.error == UnknownTask(rule.emit.value)))
    // every task that runs runs on the first path and its base name,
    // and only for a name the pattern accepts
    ensures r.Ok? ==> forall a :: a in r.value ==>
              && NamedCreate(env, n, a.fileName) && a.path == n.event.paths[0]
              && env.validPattern(rule.test) && env.matches(rule.test, a.fileName)
    // for a matching name that does not panic, each present task runs once,
    // the named one first and the inline one last
    ensures forall name ::
              NamedCreate(env, n, name) && env.validPattern(rule.test) && env.matches(rule.test, name) && r.Ok? ==>
                && |r.value| == (if rule.emit.Some? then 1 else 0) + (if rule.execute.Some? then 1 else 0)
                && (rule.emit.Some? ==>
                      r.value[0] == Action(config.tasks[rule.emit.value], name, n.event.paths[0]))
                && (rule.execute.Some? ==>
                      r.value[|r.value| - 1] == Action(rule.execute.value, name, n.event.paths[0]))
  {
    if !IsCreate(n) then Ok([])
    else if n.event.paths == [] then Fail(NoPaths)
    else
      var path := n.event.paths[0];
      match env.baseName(path)
      case None => Fail(NoFileName(path))
      case Some(name) =>
        if !env.validPattern(rule.test) then Fail(InvalidPattern(rule.test))
        else if !env.matches(rule.test, name) then Ok([])
        else if rule.emit.Some? && rule.emit.value !in config.tasks then Fail(UnknownTask(rule.emit.value))
        else
          var named := if rule.emit.Some? then [Action(config.tasks[rule.emit.value], name, path)] else [];
          var inline := if rule.execute.Some? then [Action(rule.execute.value, name, path)] else [];
          Ok(named + inline)
  }

  /** Runs the actions one after the other; the first panic stops the rest. */
  function RunTasks(env: Env, actions: seq<Action>, fs: FileSystem): (r: Trace)
    // one effect per task that finished; all of them finish unless one panics
    ensures |r.log| <= |actions|
    ensures r.panic.None? <==> |r.log| == |actions|
    decreases |actions|
  {
    if actions == [] then Trace(fs, [], None)
    else
      var a := actions[0];
      match ExecuteTask(env, a.task, a.fileName, a.path, fs)
      case Fail(e) => Trace(fs, [], Some(e))
      case Ok(done) =>
        var rest := RunTasks(env, actions[1..], done.fs);
        Trace(rest.fs, [done.effect] + rest.log, rest.panic)
  }

  /** The whole effect of one notification on the filesystem. */
  function Step(env: Env, config: RunConfig, rule: Rule, n: Notification, fs: FileSystem): (r: Trace)
    // any notification other than a create event leaves everything as it was
    ensures !IsCreate(n) ==> r == Trace(fs, [], None)
    // one notification runs at most two tasks
    ensures |r.log| <= 2
    // only a create event whose first path's base name the pattern accepts
    // can change the filesystem or log anything
    ensures r.log != [] || r.fs != fs ==>
              exists name :: NamedCreate(env, n, name) && env.matches(rule.test, name)
    // a create event that lists no path panics (line 100)
    ensures IsCreate(n) && n.event.paths == [] ==> r == Trace(fs, [], Some(NoPaths))
    // a first path with no UTF-8 base name panics; it is not skipped (line 101)
    ensures IsCreate(n) && |n.event.paths| > 0 && env.baseName(n.event.paths[0]).None? ==>
              r == Trace(fs, [], Some(NoFileName(n.event.paths[0])))
    // a pattern that does not compile panics on every named create event (line 102)
    ensures forall name :: NamedCreate(env, n, name) && !env.validPattern(rule.test) ==>
              r == Trace(fs, [], Some(InvalidPattern(rule.test)))
    // a name the pattern rejects is skipped: no task runs and the loop goes on
    ensures forall name :: NamedCreate(env, n, name) && env.validPattern(rule.test) && !env.matches(rule.test, name) ==>
              r == Trace(fs, [], None)
  {
    match Plan(env, config, rule, n)
    case Fail(e) => Trace(fs, [], Some(e))
    case Ok(actions) => RunTasks(env, actions, fs)
  }

  /** `e` is an effect that running `a` can log. */
  predicate Describes(env: Env, a: Action, e: Effect)
  {
    var dest := Dest(env, a.task, a.fileName);
    match a.task
    case Copy(_) => e == Copied(a.path, dest)
    case Move(_) => e == Moved(a.path, dest)
    case TryUnpack(_) => e == AlreadyUnpacked(dest) || e == ArchiveOpened(a.path)
  }

  /** The paths a sequence of actions may change: each source and destination. */
  function Touched(env: Env, actions: seq<Action>): set<Path>
    decreases |actions|
  {
    if actions == [] then {}
    else {actions[0].path, Dest(env, actions[0].task, actions[0].fileName)} + Touched(env, actions[1..])
  }

  lemma {:induction false} NotTouched(env: Env, actions: seq<Action>, p: Path)
    requires forall i :: 0 <= i < |actions| ==>
               p != actions[i].path && p != Dest(env, actions[i].task, actions[i].fileName)
    ensures p !in Touched(env, actions)
    decreases |actions|
  {
    if actions != [] {
      NotTouched(env, actions[1..], p);
    }
  }

  /** Each entry of a run's log is the effect of the action in the same
      position: the tasks run in the order of the actions. */
  lemma {:induction false} RunTasksLog(env: Env, actions: seq<Action>, fs: FileSystem)
    ensures var t := RunTasks(env, actions, fs);
            forall i :: 0 <= i < |t.log| ==> Describes(env, actions[i], t.log[i])
    decreases |actions|
  {
    if actions != [] {
      var a := actions[0];
      var r := ExecuteTask(env, a.task, a.fileName, a.path, fs);
      if r.Ok? {
        RunTasksLog(env, actions[1..], r.value.fs);
      }
    }
  }

  /** A run of tasks panics only in a filesystem call of one of its tasks. */
  lemma {:induction false} RunTasksPanicsOnlyInTasks(env: Env, actions: seq<Action>, fs: FileSystem)
    ensures var t := RunTasks(env, actions, fs);
            t.panic.Some? ==> t.panic.value.CopyFailed? || t.panic.value.RenameFailed? || t.panic.value.OpenFailed?
    decreases |actions|
  {
    if actions != [] {
      var a := actions[0];
      var r := ExecuteTask(env, a.task, a.fileName, a.path, fs);
      if r.Ok? {
        RunTasksPanicsOnlyInTasks(env, actions[1..], r.value.fs);
      }
    }
  }

  /** A run changes nothing outside the sources and destinations of its actions. */
  lemma {:induction false} RunTasksFrame(env: Env, actions: seq<Action>, fs: FileSystem, p: Path)
    requires p !in Touched(env, actions)
    ensures var t := RunTasks(env, actions, fs);
            && (p in t.fs <==> p in fs)
            && (p in fs ==> t.fs[p] == fs[p])
    decreases |actions|
  {
    if actions != [] {
      var a := actions[0];
      var r := ExecuteTask(env, a.task, a.fileName, a.path, fs);
      if r.Ok? {
        RunTasksFrame(env, actions[1..], r.value.fs, p);
      }
    }
  }

  /** Only the first path of a create event is looked at: the other paths
      make no difference. */
  lemma OnlyFirstPathMatters(env: Env, config: RunConfig, rule: Rule, n: Notification, m: Notification, fs: FileSystem)
    requires IsCreate(n) && IsCreate(m) && |n.event.paths| > 0 && |m.event.paths| > 0
    requires n.event.paths[0] == m.event.paths[0]
    ensures Step(env, config, rule, n, fs) == Step(env, config, rule, m, fs)
  {
  }

  /** A named task missing from the table panics before any task runs,
      so the inline task does not run either. */
  lemma MissingNamedTaskPanics(env: Env, config: RunConfig, rule: Rule, n: Notification, fs: FileSystem, name: string)
    requires NamedCreate(env, n, name) && env.validPattern(rule.test) && env.matches(rule.test, name)
    requires rule.emit.Some? && rule.emit.value !in config.tasks
    ensures Step(env, config, rule, n, fs) == Trace(fs, [], Some(UnknownTask(rule.emit.value)))
  {
  }

  /** With both a named and an inline task, a step that does not panic logs
      exactly two effects: the named task's, then the inline task's, both on
      the first path and its base name. */
  lemma {:induction false} BothTasksRunNamedFirst(env: Env, config: RunConfig, rule: Rule, n: Notification, fs: FileSystem, name: string)
    requires NamedCreate(env, n, name) && env.validPattern(rule.test) && env.matches(rule.test, name)
    requires rule.emit.Some? && rule.emit.value in config.tasks && rule.execute.Some?
    requires Step(env, config, rule, n, fs).panic.None?
    ensures var t := Step(env, config, rule, n, fs);
            && |t.log| == 2
            && Describes(env, Action(config.tasks[rule.emit.value], name, n.event.paths[0]), t.log[0])
            && Describes(env, Action(rule.execute.value, name, n.event.paths[0]), t.log[1])
  {
    var actions := Plan(env, config, rule, n).value;
    assert actions == [Action(config.tasks[rule.emit.value], name, n.event.paths[0]),
                       Action(rule.execute.value, name, n.event.paths[0])];
    RunTasksLog(env, actions, fs);
  }

  /** When the named task panics, the inline task never runs and the
      filesystem is as it was. */
  lemma NamedPanicSkipsInline(env: Env, config: RunConfig, rule: Rule, n: Notification, fs: FileSystem, name: string)
    requires NamedCreate(env, n, name) && env.validPattern(rule.test) && env.matches(rule.test, name)
    requires rule.emit.Some? && rule.emit.value in config.tasks
    requires ExecuteTask(env, config.tasks[rule.emit.value], name, n.event.paths[0], fs).Fail?
    ensures Step(env, config, rule, n, fs)
         == Trace(fs, [], Some(ExecuteTask(env, config.tasks[rule.emit.value], name, n.event.paths[0], fs).error))
  {
  }

  /** A step changes nothing but the first path of the event and the
      destinations the rule's tasks build from its base name. */
  lemma {:induction false} StepFrame(env: Env, config: RunConfig, rule: Rule, n: Notification, fs: FileSystem, p: Path)
    requires IsCreate(n) && |n.event.paths| > 0 ==> p != n.event.paths[0]
    requires forall name ::
               NamedCreate(env, n, name) && rule.emit.Some? && rule.emit.value in config.tasks ==>
                 p != Dest(env, config.tasks[rule.emit.value], name)
    requires forall name ::
               NamedCreate(env, n, name) && rule.execute.Some? ==> p != Dest(env, rule.execute.value, name)
    ensures var t := Step(env, config, rule, n, fs);
            && (p in t.fs <==> p in fs)
            && (p in fs ==> t.fs[p] == fs[p])
  {
    var plan := Plan(env, config, rule, n);
    if plan.Ok? {
      var actions := plan.value;
      forall i | 0 <= i < |actions|
        ensures p != actions[i].path && p != Dest(env, actions[i].task, actions[i].fileName)
      {
        assert actions[i] in actions;
        assert i == 0 || i == |actions| - 1;
      }
      NotTouched(env, actions, p);
      RunTasksFrame(env, actions, fs, p);
    }
  }

  /** Running two sequences of actions in turn is running them together:
      the second starts from the filesystem the first left, unless the
      first panicked. */
  lemma {:induction false} RunTasksAppend(env: Env, a: seq<Action>, b: seq<Action>, fs: FileSystem)
    ensures var first := RunTasks(env, a, fs);
            RunTasks(env, a + b, fs)
              == if first.panic.Some? then first else Then(first, RunTasks(env, b, first.fs))
    decreases |a|
  {
    if a == [] {
      assert a + b == b;
    } else {
      assert (a + b)[0] == a[0] && (a + b)[1..] == a[1..] + b;
      var x := a[0];
      var r := ExecuteTask(env, x.task, x.fileName, x.path, fs);
      if r.Ok? {
        RunTasksAppend(env, a[1..], b, r.value.fs);
        var rest := RunTasks(env, a[1..], r.value.fs);
        if rest.panic.None? {
          ThenIsAssociative(Trace(fs, [r.value.effect], None), rest, RunTasks(env, b, rest.fs));
        }
      }
    }
  }

  /** A run of one action is that action's task, executed on the filesystem. */
  lemma RunOneTask(env: Env, x: Action, fs: FileSystem)
    ensures RunTasks(env, [x], fs) == Lift(fs, ExecuteTask(env, x.task, x.fileName, x.path, fs))
  {
    assert [x][1..] == [];
  }

  /** For a create event whose first path's base name matches, the step is the
      named task executed on the filesystem, then the inline task executed on
      the filesystem the named task left; a rule with one task runs just that
      one, and a rule with none changes nothing. */
  lemma {:induction false} StepRunsNamedThenInline(env: Env, config: RunConfig, rule: Rule, n: Notification, fs: FileSystem, name: string)
    requires NamedCreate(env, n, name) && env.validPattern(rule.test) && env.matches(rule.test, name)
    requires rule.emit.Some? ==> rule.emit.value in config.tasks
    ensures var path := n.event.paths[0];
            var t := Step(env, config, rule, n, fs);
            && (rule.emit.Some? && rule.execute.Some? ==>
                  var named := Lift(fs, ExecuteTask(env, config.tasks[rule.emit.value], name, path, fs));
                  t == if named.panic.Some? then named
                       else Then(named, Lift(named.fs, ExecuteTask(env, rule.execute.value, name, path, named.fs))))
            && (rule.emit.Some? && rule.execute.None? ==>
                  t == Lift(fs, ExecuteTask(env, config.tasks[rule.emit.value], name, path, fs)))
            && (rule.emit.None? && rule.execute.Some? ==>
                  t == Lift(fs, ExecuteTask(env, rule.execute.value, name, path, fs)))
            && (rule.emit.None? && rule.execute.None? ==> t == Trace(fs, [], None))
  {
    var path := n.event.paths[0];
    if rule.emit.Some? {
      var x := Action(config.tasks[rule.emit.value], name, path);
      RunOneTask(env, x, fs);
      if rule.execute.Some? {
        var y := Action(rule.execute.value, name, path);
        assert Plan(env, config, rule, n) == Ok([x] + [y]);
        RunTasksAppend(env, [x], [y], fs);
        RunOneTask(env, y, RunTasks(env, [x], fs).fs);
      } else {
        assert [x] + [] == [x];
        assert Plan(env, config, rule, n) == Ok([x]);
      }
    } else if rule.execute.Some? {
      var y := Action(rule.execute.value, name, path);
      assert [] + [y] == [y];
      assert Plan(env, config, rule, n) == Ok([y]);
      RunOneTask(env, y, fs);
    }
  }

  /** A rule whose only task copies: a matching create event of a file puts
      the file's bytes at `join(target, name)`, keeps the source, and changes
      nothing else. */
  lemma CopyRuleDeliversFile(env: Env, config: RunConfig, rule: Rule, n: Notification, fs: FileSystem, name: string, target: string)
    requires NamedCreate(env, n, name) && env.validPattern(rule.test) && env.matches(rule.test, name)
    requires rule.emit.None? && rule.execute == Some(Copy(target))
    requires n.event.paths[0] in fs && fs[n.event.paths[0]].File?
    requires !IsDirAt(fs, env.join(target, name))
    ensures var t := Step(env, config, rule, n, fs);
            && t.panic.None?
            && t.log == [Copied(n.event.paths[0], env.join(target, name))]
            && Copies(fs, t.fs, n.event.paths[0], env.join(target, name))
  {
    StepRunsNamedThenInline(env, config, rule, n, fs, name);
  }

  /** The inline task sees what the named task did: after a named Move of the
      file elsewhere, an inline Copy of the same path panics. */
  lemma MoveThenCopyPanics(env: Env, config: RunConfig, rule: Rule, n: Notification, fs: FileSystem, name: string,
                           moveTo: string, copyTo: string)
    requires NamedCreate(env, n, name) && env.validPattern(rule.test) && env.matches(rule.test, name)
    requires rule.emit.Some? && rule.emit.value in config.tasks && config.tasks[rule.emit.value] == Move(moveTo)
    requires rule.execute == Some(Copy(copyTo))
    requires env.join(moveTo, name) != n.event.paths[0]
    requires ExecuteTask(env, Move(moveTo), name, n.event.paths[0], fs).Ok?
    ensures var t := Step(env, config, rule, n, fs);
            && t.panic == Some(CopyFailed(n.event.paths[0], env.join(copyTo, name)))
            && t.log == [Moved(n.event.paths[0], env.join(moveTo, name))]
            && n.event.paths[0] !in t.fs
  {
    StepRunsNamedThenInline(env, config, rule, n, fs, name);
  }
}
