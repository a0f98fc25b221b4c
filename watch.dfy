/** One watcher future (src/main.rs:81-122): it registers its directory and
    then takes the items of its channel one at a time until the channel
    closes or a task panics. */
module Watch {
  import opened Base
  import opened Config
  import opened Dispatch

  /** A watcher future before it is polled: the directory it will register,
      its rule and its own copy of the configuration. */
  datatype Watcher = Watcher(dir: string, rule: Rule, config: RunConfig)

  /** How a watcher future ends: its registration was refused (it returns an
      error, which nobody reads), or it processed its items. */
  datatype WatchExit = RegistrationFailed | Watched(trace: Trace)

  /** The items received so far, processed in order from `fs`; once a step
      panics the process is gone and nothing later is processed. */
  function RunEvents(env: Env, config: RunConfig, rule: Rule, items: seq<Notification>, fs: FileSystem): (r: Trace)
    // every item runs at most two tasks
    ensures |r.log| <= 2 * |items|
    decreases |items|
  {
    if items == [] then Trace(fs, [], None)
    else
      var before := RunEvents(env, config, rule, items[..|items| - 1], fs);
      if before.panic.Some? then before
      else Then(before, Step(env, config, rule, items[|items| - 1], before.fs))
  }

  /** The receive loop of one watcher, over the items its channel delivers. */
  method WatchTarget(env: Env, w: Watcher, registered: bool, items: seq<Notification>, fs: FileSystem)
    returns (exit: WatchExit)
    ensures !registered ==> exit == RegistrationFailed
    ensures registered ==> exit == Watched(RunEvents(env, w.config, w.rule, items, fs))
  {
    if !registered {
      return RegistrationFailed;
    }
    var t := Trace(fs, [], None);
    var i := 0;
    while i < |items| && t.panic.None?
      invariant 0 <= i <= |items|
      invariant t == RunEvents(env, w.config, w.rule, items[..i], fs)
    {
      assert items[..i + 1][..i] == items[..i];
      var step := Step(env, w.config, w.rule, items[i], t.fs);
      t := Trace(step.fs, t.log + step.log, step.panic);
      i := i + 1;
    }
    if i < |items| {
      PanicIsFinal(env, w.config, w.rule, items[..i], items[i..], fs);
      assert items[..i] + items[i..] == items;
    } else {
      assert items[..i] == items;
    }
    exit := Watched(t);
  }

  /** Processing two batches of items in turn is processing them together. */
  lemma {:induction false} RunEventsAppend(env: Env, config: RunConfig, rule: Rule,
                                           a: seq<Notification>, b: seq<Notification>, fs: FileSystem)
    ensures var first := RunEvents(env, config, rule, a, fs);
            RunEvents(env, config, rule, a + b, fs)
              == if first.panic.Some? then first
                 else Then(first, RunEvents(env, config, rule, b, first.fs))
    decreases |b|
  {
    if b == [] {
      assert a + b == a;
    } else {
      var b', x := b[..|b| - 1], b[|b| - 1];
      assert (a + b)[..|a + b| - 1] == a + b' && (a + b)[|a + b| - 1] == x;
      RunEventsAppend(env, config, rule, a, b', fs);
      var first := RunEvents(env, config, rule, a, fs);
      if first.panic.None? {
        var mid := RunEvents(env, config, rule, b', first.fs);
        if mid.panic.None? {
          var last := Step(env, config, rule, x, mid.fs);
          assert RunEvents(env, config, rule, b, first.fs) == Then(mid, last);
          ThenIsAssociative(first, mid, last);
        }
      }
    }
  }

  /** After a panic, nothing that arrives later has any effect. */
  lemma PanicIsFinal(env: Env, config: RunConfig, rule: Rule,
                     a: seq<Notification>, b: seq<Notification>, fs: FileSystem)
    requires RunEvents(env, config, rule, a, fs).panic.Some?
    ensures RunEvents(env, config, rule, a + b, fs) == RunEvents(env, config, rule, a, fs)
  {
    RunEventsAppend(env, config, rule, a, b, fs);
  }

  /** A stream with no create event in it changes nothing and logs nothing. */
  lemma {:induction false} NoCreateNoEffect(env: Env, config: RunConfig, rule: Rule,
                                            items: seq<Notification>, fs: FileSystem)
    requires forall i :: 0 <= i < |items| ==> !IsCreate(items[i])
    ensures RunEvents(env, config, rule, items, fs) == Trace(fs, [], None)
    decreases |items|
  {
    if items != [] {
      NoCreateNoEffect(env, config, rule, items[..|items| - 1], fs);
    }
  }

  /** A rule whose pattern compiles never panics on its pattern, however many
      events arrive. */
  lemma {:induction false} ValidPatternNeverPanics(env: Env, config: RunConfig, rule: Rule,
                                                   items: seq<Notification>, fs: FileSystem)
    requires env.validPattern(rule.test)
    ensures forall p :: RunEvents(env, config, rule, items, fs).panic != Some(InvalidPattern(p))
    decreases |items|
  {
    if items != [] {
      var before := RunEvents(env, config, rule, items[..|items| - 1], fs);
      ValidPatternNeverPanics(env, config, rule, items[..|items| - 1], fs);
      if before.panic.None? {
        var n := items[|items| - 1];
        match Plan(env, config, rule, n)
        case Fail(e) =>
        case Ok(actions) => RunTasksPanicsOnlyInTasks(env, actions, before.fs);
      }
    }
  }
}
