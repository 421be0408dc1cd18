/**
 * The filesystem as the set of paths that exist, with paths joined by a
 * plain "/". `Mkdir`, `MkdirAll` and `RemoveAll` follow Go's `os` package
 * on that set; an error other than "file exists" comes from the world's
 * `mkdirFault` oracle.
 */
module FileSys {
  import opened Wrappers
  import opened Strs

  /** What `os.Mkdir` returns: nil, an error for which `os.IsExist` holds, or another error. */
  datatype MkdirResult = Created | AlreadyExists | MkdirFailed(reason: string)

  /** The text of the `*PathError` that `os.Mkdir` returns. */
  function MkdirErrorText(path: string, reason: string): string {
    "mkdir " + path + ": " + reason
  }

  /** The error text of a failed `os.Mkdir` ("file exists" is `EEXIST`'s text). */
  function MkdirResultText(path: string, r: MkdirResult): string {
    match r
    case Created => ""
    case AlreadyExists => MkdirErrorText(path, "file exists")
    case MkdirFailed(reason) => MkdirErrorText(path, reason)
  }

  /** `q` is `p` or lies below it. */
  predicate Under(q: string, p: string) {
    q == p || IsPrefix(p + "/", q)
  }

  /**
   * `os.Mkdir(p)`: an existing path reports "exists" and changes nothing;
   * otherwise a fault fails and changes nothing; otherwise `p` is added.
   */
  function Mkdir(paths: set<string>, p: string, fault: Option<string>): (r: (MkdirResult, set<string>))
    ensures r.0 == AlreadyExists <==> p in paths
    ensures r.0 == Created <==> p !in paths && fault == None
    ensures r.0.MkdirFailed? ==> fault == Some(r.0.reason)
    ensures r.1 == if r.0 == Created then paths + {p} else paths
  {
    if p in paths then (AlreadyExists, paths)
    else if fault.Some? then (MkdirFailed(fault.value), paths)
    else (Created, paths + {p})
  }

  /** `p` and every prefix of it that ends just before a "/". */
  function Ancestry(p: string): (r: set<string>)
    ensures p != "" ==> p in r
    ensures forall q :: q in r <==> q != "" && IsPrefix(q, p) && (|q| == |p| || p[|q|] == '/')
  {
    var r := set i | 0 < i <= |p| && (i == |p| || p[i] == '/') :: p[..i];
    assert p[..|p|] == p;
    assert p != "" ==> p[..|p|] in r;
    forall q | q != "" && IsPrefix(q, p) && (|q| == |p| || p[|q|] == '/')
      ensures q in r
    {
      assert q == p[..|q|];
    }
    r
  }

  /**
   * `os.MkdirAll(p)`: nil when `p` exists already; otherwise the fault, if
   * any, with nothing created; otherwise `p` and its ancestors exist.
   */
  function MkdirAll(paths: set<string>, p: string, fault: Option<string>): (r: (Option<string>, set<string>))
    ensures r.0 == None <==> p in paths || fault == None
    ensures r.0.Some? ==> r.0 == Some(MkdirErrorText(p, fault.value)) && r.1 == paths
    ensures r.0 == None ==> paths <= r.1 && (p != "" ==> p in r.1)
    ensures r.0 == None && p !in paths ==> r.1 == paths + Ancestry(p)
  {
    if p in paths then (None, paths)
    else if fault.Some? then (Some(MkdirErrorText(p, fault.value)), paths)
    else (None, paths + Ancestry(p))
  }

  /** `os.RemoveAll(p)`: `p` and everything below it is gone, the rest stays. */
  function RemoveAll(paths: set<string>, p: string): (r: set<string>)
    ensures forall q :: q in r <==> q in paths && !Under(q, p)
    ensures p !in r
  {
    set q | q in paths && !Under(q, p)
  }

  /** The disk, shared by every project of the service. */
  class FileSystem {
    var paths: set<string>

    constructor (initial: set<string>)
      ensures paths == initial
    {
      paths := initial;
    }

    method MakeDir(p: string, fault: Option<string>) returns (r: MkdirResult)
      modifies this
      ensures (r, paths) == Mkdir(old(paths), p, fault)
    {
      var res := Mkdir(paths, p, fault);
      r, paths := res.0, res.1;
    }

    method MakeDirAll(p: string, fault: Option<string>) returns (err: Option<string>)
      modifies this
      ensures (err, paths) == MkdirAll(old(paths), p, fault)
    {
      var res := MkdirAll(paths, p, fault);
      err, paths := res.0, res.1;
    }

    method RemoveTree(p: string)
      modifies this
      ensures paths == RemoveAll(old(paths), p)
    {
      paths := RemoveAll(paths, p);
    }

    /** A file written by a successful `go build -o p`. */
    method AddFiles(ps: set<string>)
      modifies this
      ensures paths == old(paths) + ps
    {
      paths := paths + ps;
    }
  }
}
