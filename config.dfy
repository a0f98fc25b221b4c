/** The configuration value the daemon loads once and shares read-only
    with every watcher (src/main.rs:12-48). */
module Config {
  import opened Base

  newtype u32 = x: int | 0 <= x < 0x1_0000_0000
  newtype i32 = x: int | -0x8000_0000 <= x < 0x8000_0000

  /** The closed set of task kinds, one payload shape per kind. */
  datatype TaskConf =
    | Copy(target: string)
    | Move(target: string)
    | TryUnpack(pwd: string)

  /** A rule: `test` is the pattern, `emit` names an entry of the task table,
      `execute` is a task written inline. `priority` is declared but never read. */
  datatype Rule = Rule(
    test: string,
    watchDir: string,
    emit: Option<string>,
    priority: Option<i32>,
    execute: Option<TaskConf>)

  /** `debounceTime` is declared but never read. */
  datatype RunConfig = RunConfig(
    tasks: map<string, TaskConf>,
    rules: seq<Rule>,
    debounceTime: u32)
}
