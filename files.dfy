/** The part of the operating system the tools touch, abstracted: file
    contents by path, the set of paths a write may create or replace, and
    for each root the sequence of entries a recursive walk visits. */
module Files {
  import opened Wrappers

  /** One call of the walk callback: the visited path, and the error the
      walk reports for it, if any. */
  datatype Visit = Visit(path: string, err: Option<string>)

  datatype Disk = Disk(files: map<string, string>, writable: set<string>, walks: map<string, seq<Visit>>)

  /** The errors the operating system reports: a path that does not exist,
      for a read and for the walk's lstat, and a refused write. */
  function NoSuchFile(path: string): string
  {
    "open " + path + ": no such file or directory"
  }

  function NoSuchRoot(root: string): string
  {
    "lstat " + root + ": no such file or directory"
  }

  function PermissionDenied(path: string): string
  {
    "open " + path + ": permission denied"
  }

  /** Reading a file: its contents, or the error of a missing file. */
  function ReadAt(d: Disk, path: string): (r: Result<string>)
    ensures r.Ok? <==> path in d.files
    ensures r.Ok? ==> r.value == d.files[path]
  {
    if path in d.files then Ok(d.files[path])
    else Err(NoSuchFile(path))
  }

  /** Writing a file: a writable path gets the new contents and nothing else
      changes; any other path is refused and the disk is unchanged. */
  function WriteAt(d: Disk, path: string, data: string): (r: (Option<string>, Disk))
    ensures r.0.None? <==> path in d.writable
    ensures r.0.None? ==> r.1 == d.(files := d.files[path := data])
    ensures r.0.Some? ==> r.1 == d
  {
    if path in d.writable then (None, d.(files := d.files[path := data]))
    else (Some(PermissionDenied(path)), d)
  }

  /** The entries a walk rooted at `root` visits, in visit order. A root that
      does not exist is reported to the callback as an error on the root. */
  function WalkFrom(d: Disk, root: string): (r: seq<Visit>)
    ensures root !in d.walks ==> r == [Visit(root, Some(NoSuchRoot(root)))]
  {
    if root in d.walks then d.walks[root]
    else [Visit(root, Some(NoSuchRoot(root)))]
  }

  /** The file system as mutable state shared by every tool call. */
  class FileSystem {
    var files: map<string, string>
    var writable: set<string>
    var walks: map<string, seq<Visit>>

    function State(): Disk
      reads this
    {
      Disk(files, writable, walks)
    }

    constructor (d: Disk)
      ensures State() == d
    {
      files, writable, walks := d.files, d.writable, d.walks;
    }

    method ReadFile(path: string) returns (r: Result<string>)
      ensures r == ReadAt(State(), path)
    {
      if path in files {
        r := Ok(files[path]);
      } else {
        r := Err(NoSuchFile(path));
      }
    }

    method WriteFile(path: string, data: string) returns (err: Option<string>)
      modifies this`files
      ensures (err, State()) == WriteAt(old(State()), path, data)
    {
      if path in writable {
        files := files[path := data];
        err := None;
      } else {
        err := Some(PermissionDenied(path));
      }
    }

    method Walk(root: string) returns (visits: seq<Visit>)
      ensures visits == WalkFrom(State(), root)
    {
      if root in walks {
        visits := walks[root];
      } else {
        visits := [Visit(root, Some(NoSuchRoot(root)))];
      }
    }
  }
}
