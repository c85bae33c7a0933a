/**
 * The part of the file system the plugin touches: a map from path to what is
 * stored there. Existence is membership; a write can fail before or after the
 * file is opened.
 */
module FileStore {
  import opened Wrappers

  /**
   * A stored file. `Text` holds what reading it as UTF-8 text returns;
   * `Binary` is a file whose bytes cannot be read back as text (an image,
   * a corrupt or unreadable file), so a text read of it raises.
   */
  datatype Entry = Text(contents: string) | Binary

  type Files = map<string, Entry>

  /** `open(path, "r", encoding="utf-8").read()`: None when the read raises. */
  function ReadText(files: Files, path: string): (r: Option<string>)
    ensures path !in files ==> r == None
    ensures r.Some? <==> path in files && files[path].Text?
    ensures r.Some? ==> r.value == files[path].contents
  {
    if path in files && files[path].Text? then Some(files[path].contents) else None
  }

  /** Two stores hold the same entry (or both none) at `path`. */
  predicate SameAt(f1: Files, f2: Files, path: string) {
    (path in f1 <==> path in f2) && (path in f1 ==> f1[path] == f2[path])
  }

  /**
   * Where a write goes wrong. Opening a path in `unopenable` raises before the
   * file is touched; a path in `failsAfterOpen` opens, which creates or
   * truncates the file, and then the write raises, leaving it empty.
   */
  datatype Faults = Faults(unopenable: set<string>, failsAfterOpen: set<string>)

  /** A write to `path` completes without raising. */
  predicate Writable(faults: Faults, path: string) {
    path !in faults.unopenable && path !in faults.failsAfterOpen
  }

  /** The store after writing `e` at `path` with `open(path, "w")`. */
  function WriteResult(files: Files, faults: Faults, path: string, e: Entry): (r: Files)
    ensures forall p :: p != path ==> SameAt(r, files, p)
    ensures Writable(faults, path) ==> path in r && r[path] == e
    ensures path in faults.unopenable ==> r == files
    ensures path !in faults.unopenable && path in faults.failsAfterOpen ==> path in r && r[path] == Text("")
    ensures forall p :: p in files ==> p in r
  {
    if path in faults.unopenable then files
    else if path in faults.failsAfterOpen then files[path := Text("")]
    else files[path := e]
  }

  /** The disk, updated in place by the plugin's writes. */
  class Disk {
    var files: Files
    /** How writes to each path fail. */
    const faults: Faults

    constructor (files: Files, faults: Faults)
      ensures this.files == files && this.faults == faults
    {
      this.files := files;
      this.faults := faults;
    }

    /** Writes `e` at `path`; `ok` is false when the write raised. */
    method Write(path: string, e: Entry) returns (ok: bool)
      modifies this
      ensures ok == Writable(faults, path)
      ensures files == WriteResult(old(files), faults, path, e)
    {
      if path in faults.unopenable {
        return false;
      }
      if path in faults.failsAfterOpen {
        files := files[path := Text("")];
        return false;
      }
      files := files[path := e];
      ok := true;
    }
  }
}
