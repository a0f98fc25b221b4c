/** Startup (src/main.rs:55-64): every rule's pattern is compiled, in order,
    before any watcher is polled, and one watcher is made per rule. */
module Startup {
  import opened Base
  import opened Config
  import opened Watch

  predicate AllPatternsValid(env: Env, config: RunConfig)
  {
    forall i :: 0 <= i < |config.rules| ==> env.validPattern(config.rules[i].test)
  }

  /** The pre-check and fan-out loop. On success the watchers are handed to
      a join of all of them; on the first pattern that does not compile the
      process panics and no watcher has run. */
  method Start(env: Env, config: RunConfig) returns (r: Result<seq<Watcher>>)
    ensures r.Ok? <==> AllPatternsValid(env, config)
    ensures r.Ok? ==>
              && |r.value| == |config.rules|
              && forall i :: 0 <= i < |config.rules| ==>
                   r.value[i] == Watcher(config.rules[i].watchDir, config.rules[i], config)
    ensures r.Fail? ==>
              exists k :: 0 <= k < |config.rules|
                && !env.validPattern(config.rules[k].test)
                && (forall j :: 0 <= j < k ==> env.validPattern(config.rules[j].test))
                && r.error == InvalidPattern(config.rules[k].test)
  {
    var watchers: seq<Watcher> := [];
    var i := 0;
    while i < |config.rules|
      invariant 0 <= i <= |config.rules|
      invariant |watchers| == i
      invariant forall j :: 0 <= j < i ==>
                  env.validPattern(config.rules[j].test)
                  && watchers[j] == Watcher(config.rules[j].watchDir, config.rules[j], config)
    {
      var rule := config.rules[i];
      if !env.validPattern(rule.test) {
        return Fail(InvalidPattern(rule.test));
      }
      watchers := watchers + [Watcher(rule.watchDir, rule, config)];
      i := i + 1;
    }
    r := Ok(watchers);
  }

  /** Thanks to the pre-check, the pattern compilation repeated on every
      create event can never panic in any watcher that was started. */
  lemma StartedWatchersNeverPanicOnPattern(env: Env, config: RunConfig, i: nat,
                                           items: seq<Dispatch.Notification>, fs: FileSystem)
    requires AllPatternsValid(env, config)
    requires i < |config.rules|
    ensures forall p :: RunEvents(env, config, config.rules[i], items, fs).panic != Some(InvalidPattern(p))
  {
    ValidPatternNeverPanics(env, config, config.rules[i], items, fs);
  }
}
