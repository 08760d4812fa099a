/** The project directory that `apply` merges into, path by path. A file that
    is present can be read and written, read but not written, or not read at
    all (its read fails for a reason other than absence). A path can also be
    absent in a directory that does not exist: it reads as missing, and a
    file cannot be created there. */
module Files {
  import opened Common

  datatype FileEntry =
    | Text(content: string)
    | ReadOnly(content: string)
    | Unreadable
    | NoDirectory

  /** Whether a file is present at `path` with content to read. */
  predicate Present(files: map<string, FileEntry>, path: string) {
    path in files && (files[path].Text? || files[path].ReadOnly?)
  }

  /** Reading a file before merging into it (`os.ReadFile` followed by the
      `os.IsNotExist` test): a missing file, also one whose directory is
      missing, reads as empty content; any other read failure is a
      `ReadError`. */
  function ReadExisting(files: map<string, FileEntry>, path: string): (r: Result<string>)
    ensures r.Ok? <==> path !in files || !files[path].Unreadable?
    ensures !Present(files, path) && r.Ok? ==> r == Ok("")
    ensures Present(files, path) ==> r == Ok(files[path].content)
    ensures r.Err? ==> r.error == ReadError
  {
    if path !in files then Ok("")
    else match files[path]
      case Text(content) => Ok(content)
      case ReadOnly(content) => Ok(content)
      case Unreadable => Err(ReadError)
      case NoDirectory => Ok("")
  }

  /** Whether `os.WriteFile` can put a file at `path`: a new file in an
      existing directory, or a present file that is not read-only. */
  predicate Writable(files: map<string, FileEntry>, path: string) {
    path !in files || !(files[path].ReadOnly? || files[path].NoDirectory?)
  }

  class Workspace {
    var files: map<string, FileEntry>

    constructor (files: map<string, FileEntry>)
      ensures this.files == files
    {
      this.files := files;
    }

    /** `os.WriteFile`: replaces the whole file at `path` with `content`, or
        fails with `WriteError` when the file is read-only or its directory
        does not exist. */
    method WriteFile(path: string, content: string) returns (r: Outcome)
      modifies this
      ensures r == Pass <==> Writable(old(files), path)
      ensures r.Fail? ==> r.error == WriteError && files == old(files)
      ensures r == Pass ==> files == old(files)[path := Text(content)]
    {
      if path in files && (files[path].ReadOnly? || files[path].NoDirectory?) {
        return Fail(WriteError);
      }
      files := files[path := Text(content)];
      return Pass;
    }
  }
}
