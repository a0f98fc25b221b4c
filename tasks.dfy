/** The task executor (src/main.rs:124-146): one exhaustive match over the
    task kind, acting on the abstract filesystem. Every refused filesystem
    call is a panic, reported as a `Failure`. */
module Tasks {
  import opened Base
  import opened Config

  /** What one task that did not panic did. */
  datatype Effect =
    | Copied(source: Path, dest: Path)
    | Moved(source: Path, dest: Path)
    | AlreadyUnpacked(dest: Path)
    | ArchiveOpened(source: Path)

  datatype Executed = Executed(fs: FileSystem, effect: Effect)

  /** The path a task builds from its directory and the file's base name:
      the copy or move destination, or the directory TryUnpack looks for. */
  function Dest(env: Env, task: TaskConf, fileName: string): Path
  {
    match task
    case Copy(target) => env.join(target, fileName)
    case Move(target) => env.join(target, fileName)
    case TryUnpack(pwd) => env.join(pwd, fileName)
  }

  /** `after` is `before` with the entry at `src` duplicated at `dest`:
      nothing else appears, disappears or changes, and `src` keeps its node. */
  ghost predicate Copies(before: FileSystem, after: FileSystem, src: Path, dest: Path)
  {
    && src in before && dest in after && after[dest] == before[src]
    && src in after && after[src] == before[src]
    && (forall p :: p != dest ==> (p in after <==> p in before))
    && (forall p :: p != dest && p in before ==> after[p] == before[p])
  }

  /** `after` is `before` with the entry at `src` renamed to `dest`: the
      destination gets the node, the source is gone unless it is the
      destination itself, and nothing else appears, disappears or changes. */
  ghost predicate Renames(before: FileSystem, after: FileSystem, src: Path, dest: Path)
  {
    && src in before && dest in after && after[dest] == before[src]
    && (src != dest ==> src !in after)
    && (forall p :: p != dest && p != src ==> (p in after <==> p in before))
    && (forall p :: p != dest && p != src && p in before ==> after[p] == before[p])
  }

  /** A rename is refused when the source is missing or the destination
      holds an entry of the other kind (a file onto a directory, or a
      directory onto a file). */
  predicate RenameRefused(fs: FileSystem, src: Path, dest: Path)
  {
    src !in fs || (dest in fs && fs[dest].Dir? != fs[src].Dir?)
  }

  /** Runs `task` on the file `fileName` found at `path`. */
  function ExecuteTask(env: Env, task: TaskConf, fileName: string, path: Path, fs: FileSystem): (r: Result<Executed>)
    // Copy: succeeds exactly when the source is a file and the destination
    // is not a directory; then the destination holds the source's bytes.
    ensures task.Copy? ==>
      var dest := env.join(task.target, fileName);
      && (r.Ok? <==> path in fs && fs[path].File? && !IsDirAt(fs, dest))
      && (r.Ok? ==> r.value.effect == Copied(path, dest) && Copies(fs, r.value.fs, path, dest))
      && (r.Fail? ==> r.error == CopyFailed(path, dest))
    // Move: a single rename with no fallback.
    ensures task.Move? ==>
      var dest := env.join(task.target, fileName);
      && (r.Ok? <==> !RenameRefused(fs, path, dest))
      && (r.Ok? ==> r.value.effect == Moved(path, dest) && Renames(fs, r.value.fs, path, dest))
      && (r.Fail? ==> r.error == RenameFailed(path, dest))
    // TryUnpack: never changes the filesystem; skips without opening the
    // source when the directory exists, and otherwise panics only when the
    // source cannot be opened.
    ensures task.TryUnpack? ==>
      var dest := env.join(task.pwd, fileName);
      && (r.Ok? ==> r.value.fs == fs)
      && (IsDirAt(fs, dest) ==> r.Ok? && r.value.effect == AlreadyUnpacked(dest))
      && (!IsDirAt(fs, dest) ==>
            && (r.Ok? <==> path in fs)
            && (r.Ok? ==> r.value.effect == ArchiveOpened(path))
            && (r.Fail? ==> r.error == OpenFailed(path)))
  {
    match task
    case Copy(target) =>
      var dest := env.join(target, fileName);
      if path in fs && fs[path].File? && !IsDirAt(fs, dest) then
        Ok(Executed(fs[dest := fs[path]], Copied(path, dest)))
      else
        Fail(CopyFailed(path, dest))
    case Move(target) =>
      var dest := env.join(target, fileName);
      if RenameRefused(fs, path, dest) then
        Fail(RenameFailed(path, dest))
      else if path == dest then
        Ok(Executed(fs, Moved(path, dest)))
      else
        Ok(Executed((fs - {path})[dest := fs[path]], Moved(path, dest)))
    case TryUnpack(pwd) =>
      var dest := env.join(pwd, fileName);
      if IsDirAt(fs, dest) then
        Ok(Executed(fs, AlreadyUnpacked(dest)))
      else if path !in fs then
        Fail(OpenFailed(path))
      else
        // the archive value is built and dropped: nothing is extracted
        Ok(Executed(fs, ArchiveOpened(path)))
  }

  /** A Move is a Copy followed by removing the source, when source and
      destination differ and the copy is possible. */
  lemma MoveIsCopyThenRemove(env: Env, target: string, fileName: string, path: Path, fs: FileSystem)
    requires path != env.join(target, fileName)
    requires ExecuteTask(env, Copy(target), fileName, path, fs).Ok?
    ensures ExecuteTask(env, Move(target), fileName, path, fs).Ok?
    ensures ExecuteTask(env, Move(target), fileName, path, fs).value.fs
         == ExecuteTask(env, Copy(target), fileName, path, fs).value.fs - {path}
  {
  }

  /** Copying again what was just copied changes nothing more. */
  lemma CopyIsIdempotent(env: Env, target: string, fileName: string, path: Path, fs: FileSystem)
    requires ExecuteTask(env, Copy(target), fileName, path, fs).Ok?
    ensures var once := ExecuteTask(env, Copy(target), fileName, path, fs).value;
            ExecuteTask(env, Copy(target), fileName, path, once.fs) == Ok(once)
  {
    var dest := env.join(target, fileName);
    var once := fs[dest := fs[path]];
    assert once[dest := once[path]] == once;
  }

  /** There is no second chance for a Move: once the source has been renamed
      away, the same Move panics. */
  lemma MoveIsNotRepeatable(env: Env, target: string, fileName: string, path: Path, fs: FileSystem)
    requires path != env.join(target, fileName)
    requires ExecuteTask(env, Move(target), fileName, path, fs).Ok?
    ensures var once := ExecuteTask(env, Move(target), fileName, path, fs).value;
            ExecuteTask(env, Move(target), fileName, path, once.fs)
              == Fail(RenameFailed(path, env.join(target, fileName)))
  {
  }
}
