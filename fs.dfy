/** The filesystem facts the engine consults, as an object whose state the
    engine changes: `chmod` makes a file executable, `makedirs` creates a
    directory. Which paths exist, which `chmod` calls raise, what
    `shutil.which` answers and which `makedirs` calls raise are given. */
module Fs {
  import opened Wrappers

  class FileSystem {
    /** Paths for which `os.path.exists` is true. */
    var existing: set<string>
    /** Paths whose mode bits allow execution (`os.access(p, os.X_OK)`). */
    var executable: set<string>
    /** Paths on which `os.chmod` raises (permission or read-only storage). */
    const chmodDenied: set<string>
    /** `shutil.which(name)` for the names it finds. */
    const which: map<string, string>
    /** Directories whose `os.makedirs` raises, with the exception's text. */
    const mkdirErrors: map<string, string>

    constructor (existing: set<string>, executable: set<string>, chmodDenied: set<string>,
                 which: map<string, string>, mkdirErrors: map<string, string>)
      ensures this.existing == existing && this.executable == executable
      ensures this.chmodDenied == chmodDenied && this.which == which
      ensures this.mkdirErrors == mkdirErrors
    {
      this.existing := existing;
      this.executable := executable;
      this.chmodDenied := chmodDenied;
      this.which := which;
      this.mkdirErrors := mkdirErrors;
    }

    /** `os.path.exists(p)`. */
    method Exists(p: string) returns (b: bool)
      ensures b <==> p in existing
    {
      b := p in existing;
    }

    /** `os.access(p, os.X_OK)`. */
    method IsExecutable(p: string) returns (b: bool)
      ensures b <==> p in executable
    {
      b := p in executable;
    }

    /** `os.chmod(p, 0o755)`: raises (here: `false`) on a missing path or a
        denied one, and otherwise makes `p` executable. */
    method Chmod(p: string) returns (ok: bool)
      modifies this`executable
      ensures ok <==> p in existing && p !in chmodDenied
      ensures executable == if ok then old(executable) + {p} else old(executable)
    {
      ok := p in existing && p !in chmodDenied;
      if ok {
        executable := executable + {p};
      }
    }

    /** `shutil.which(name)`. */
    method Which(name: string) returns (r: Option<string>)
      ensures r == if name in which then Some(which[name]) else None
    {
      r := if name in which then Some(which[name]) else None;
    }

    /** `os.makedirs(p, exist_ok=True)`: `Some(text)` when it raises. */
    method Makedirs(p: string) returns (err: Option<string>)
      modifies this`existing
      ensures err == if p in mkdirErrors then Some(mkdirErrors[p]) else None
      ensures existing == if err.None? then old(existing) + {p} else old(existing)
    {
      if p in mkdirErrors {
        err := Some(mkdirErrors[p]);
      } else {
        err := None;
        existing := existing + {p};
      }
    }
  }
}
