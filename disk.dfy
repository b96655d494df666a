/** The part of the file system the backup layer touches: text files and directories. */
module Disk {

  /** Files map a path to their text; `denied` holds the directories that cannot be created
      (missing permissions, a bad volume). */
  /** Whether directory `path` exists already or `Directory.CreateDirectory` can make it:
      creation throws when the path is denied or a file is in the way. */
  predicate CanEnsure(path: string, files: map<string, string>, dirs: set<string>, denied: set<string>)
  {
    path in dirs || (path !in denied && path !in files)
  }

  class FileSystem {
    var files: map<string, string>
    var dirs: set<string>
    const denied: set<string>

    constructor (files: map<string, string>, dirs: set<string>, denied: set<string>)
      ensures this.files == files && this.dirs == dirs && this.denied == denied
    {
      this.files := files;
      this.dirs := dirs;
      this.denied := denied;
    }

    /** `Disk.VerifyDirectory`: creates the directory when it is absent; `ok` is false
        exactly when that creation throws, and then nothing changes. */
    method VerifyDirectory(path: string) returns (ok: bool)
      modifies this
      ensures ok == CanEnsure(path, old(files), old(dirs), denied)
      ensures dirs == if ok then old(dirs) + {path} else old(dirs)
      ensures files == old(files)
    {
      if path in dirs {
        return true;
      }
      if !CanEnsure(path, files, dirs, denied) {
        return false;
      }
      dirs := dirs + {path};
      return true;
    }

    /** `File.WriteAllText`: creates or replaces the file. */
    method WriteAllText(path: string, contents: string)
      modifies this
      ensures files == old(files)[path := contents]
      ensures dirs == old(dirs)
    {
      files := files[path := contents];
    }

    /** `File.Delete`: removes the file; a missing file is not an error. */
    method Delete(path: string)
      modifies this
      ensures files == old(files) - {path}
      ensures dirs == old(dirs)
    {
      files := files - {path};
    }
  }
}
