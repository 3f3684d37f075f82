/**
 * The part of the file system the scripts use. A file is the list of its lines, each with
 * its own line break where it has one; a path that maps to nothing does not exist.
 */
module Files {

  /** `f.read()`: the lines joined back into one text. */
  function Joined(lines: seq<string>): string {
    if lines == [] then [] else lines[0] + Joined(lines[1..])
  }

  class FileSystem {
    var files: map<string, seq<string>>

    constructor (files: map<string, seq<string>>)
      ensures this.files == files
    {
      this.files := files;
    }

    /** `os.path.exists(path)`. */
    predicate Exists(path: string)
      reads this
    {
      path in files
    }

    /** `if os.path.exists(path): os.remove(path)`. */
    method RemoveIfExists(path: string)
      modifies this
      ensures files == old(files) - {path}
    {
      files := files - {path};
    }

    /** `open(path, 'a')`: the file is created empty if it does not exist, and kept otherwise. */
    method OpenForAppend(path: string)
      modifies this
      ensures path in files
      ensures files == old(files)[path := if path in old(files) then old(files)[path] else []]
    {
      if path !in files {
        files := files[path := []];
      }
    }

    /** `f.write(line)` on a file opened for appending. */
    method AppendLine(path: string, line: string)
      requires path in files
      modifies this
      ensures files == old(files)[path := old(files)[path] + [line]]
    {
      files := files[path := files[path] + [line]];
    }

    /** `open(path, 'w')` followed by writing `lines`: whatever was there is replaced. */
    method Overwrite(path: string, lines: seq<string>)
      modifies this
      ensures files == old(files)[path := lines]
    {
      files := files[path := lines];
    }
  }
}
