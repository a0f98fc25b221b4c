/** Shared vocabulary of the model: results, paths, the abstract filesystem
    and the foreign collaborators (regex engine, path handling), which the
    model takes as parameters rather than defines. */
module Base {

  datatype Option<+T> = None | Some(value: T)

  /** Why the daemon panics: one constructor per kind of panic in
      src/main.rs (an unwrap, or the index at line 100); a panic ends the
      whole process. */
  datatype Failure =
    | InvalidPattern(pattern: string)        // the pattern does not compile (lines 57, 102)
    | NoPaths                                // a create event that lists no path (line 100)
    | NoFileName(path: Path)                 // no UTF-8 final component (line 101)
    | UnknownTask(name: string)              // a named task missing from the table (line 108)
    | CopyFailed(source: Path, dest: Path)   // the copy is refused (line 129)
    | RenameFailed(source: Path, dest: Path) // the rename is refused (line 135)
    | OpenFailed(path: Path)                 // the source cannot be opened (line 143)

  datatype Result<+T> = Ok(value: T) | Fail(error: Failure)

  newtype byte = x: int | 0 <= x < 256

  type Path = string

  /** One entry of the abstract filesystem. */
  datatype Node = File(bytes: seq<byte>) | Dir

  type FileSystem = map<Path, Node>

  /** `Path::is_dir`: true exactly when a directory is stored at `p`. */
  predicate IsDirAt(fs: FileSystem, p: Path)
  {
    p in fs && fs[p].Dir?
  }

  /** The collaborators the core calls but does not define.
      - validPattern(p): `regex::Regex::new(p)` succeeds;
      - matches(p, name): the compiled `p` matches somewhere in `name`;
      - join(dir, name): `Path::new(dir).join(name)`;
      - baseName(path): `path.file_name()` followed by `to_str()`, `None`
        when the path has no final component or it is not UTF-8. */
  datatype Env = Env(
    validPattern: string -> bool,
    matches: (string, string) -> bool,
    join: (Path, string) -> Path,
    baseName: Path -> Option<string>)
}
