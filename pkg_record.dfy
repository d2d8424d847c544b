/**
 * The package record of libpkg/pkg.c: its value view, the mutable record
 * with its setters, adders and accessors, and pkg_reset / pkg_free.
 *
 * Text fields (sbufs in the source) are strings; clearing a finished buffer
 * and concatenating onto it is assignment. The four arrays are sequences;
 * an array that was never initialised reads as the empty sequence.
 * Ownership is tree-shaped, so dependency and reverse-dependency entries are
 * nested record values.
 */
module PkgRecord {
  import opened CModel

  /** Capacity of a file record's path buffer (MAXPATHLEN). */
  const PATH_CAP: nat := 1024
  /** Capacity of a file record's checksum buffer: 64 hex digits and the NUL. */
  const SHA_CAP: nat := 65

  /** Provenance of a record (pkg_t). */
  datatype Kind = File | Installed | NotFound

  /** A payload file (struct pkg_file). */
  datatype PkgFile = PkgFile(path: string, sha256: string)

  /** A conflict pattern (struct pkg_conflict). */
  datatype Conflict = Conflict(glob: string)

  /** The contents of one record, as the read accessors see it. */
  datatype Pkg = Pkg(
    kind: Kind,
    name: string,
    version: string,
    origin: string,
    comment: string,
    desc: string,
    deps: seq<Pkg>,
    rdeps: seq<Pkg>,
    conflicts: seq<Conflict>,
    files: seq<PkgFile>)

  /** The record pkg_new allocates: zero-filled, so its kind is the first pkg_t value. */
  function Empty(): Pkg {
    Pkg(File, "", "", "", "", "", [], [], [], [])
  }

  /** The record after pkg_reset: text and collections emptied, kind kept. */
  function Cleared(v: Pkg): (r: Pkg)
    ensures r.kind == v.kind
    ensures r.name == "" && r.version == "" && r.origin == "" && r.comment == "" && r.desc == ""
    ensures |r.deps| == 0 && |r.rdeps| == 0 && |r.conflicts| == 0 && |r.files| == 0
  {
    Empty().(kind := v.kind)
  }

  /** The record after pkg_adddep(v, dep). */
  function WithDep(v: Pkg, dep: Option<Pkg>): (r: Pkg)
    ensures dep.None? ==> r == v
    ensures dep.Some? ==> |r.deps| == |v.deps| + 1 && r.deps[|v.deps|] == dep.value
    ensures r.deps[..|v.deps|] == v.deps
    ensures r == v.(deps := r.deps)
  {
    if dep.None? then v else v.(deps := v.deps + [dep.value])
  }

  /** The file record pkg_addfile builds from its two arguments. */
  function NewFile(path: CStr, sha256: CStr): PkgFile {
    PkgFile(Strlcpy(path, PATH_CAP), Strlcpy(sha256, SHA_CAP))
  }

  /** The record after pkg_addfile(v, path, sha256). */
  function WithFile(v: Pkg, path: Option<CStr>, sha256: Option<CStr>): (r: Pkg)
    ensures path.None? || sha256.None? ==> r == v
    ensures path.Some? && sha256.Some? ==>
      |r.files| == |v.files| + 1 &&
      r.files[|v.files|].path == Strlcpy(path.value, PATH_CAP) &&
      r.files[|v.files|].sha256 == Strlcpy(sha256.value, SHA_CAP)
    ensures r.files[..|v.files|] == v.files
    ensures r == v.(files := r.files)
  {
    if path.None? || sha256.None? then v
    else v.(files := v.files + [NewFile(path.value, sha256.value)])
  }

  /** The record after pkg_addconflict(v, glob). */
  function WithConflict(v: Pkg, glob: Option<CStr>): (r: Pkg)
    ensures glob.None? ==> r == v
    ensures glob.Some? ==> |r.conflicts| == |v.conflicts| + 1 && r.conflicts[|v.conflicts|].glob == glob.value
    ensures r.conflicts[..|v.conflicts|] == v.conflicts
    ensures r == v.(conflicts := r.conflicts)
  {
    if glob.None? then v else v.(conflicts := v.conflicts + [Conflict(glob.value)])
  }

  /** One call of an adder, with its possibly NULL arguments. */
  datatype Addition =
    | DepCall(dep: Option<Pkg>)
    | FileCall(path: Option<CStr>, sha256: Option<CStr>)
    | ConflictCall(glob: Option<CStr>)

  /** True when the call returns 0 rather than -1. */
  predicate Succeeds(a: Addition) {
    match a
    case DepCall(dep) => dep.Some?
    case FileCall(path, sha256) => path.Some? && sha256.Some?
    case ConflictCall(glob) => glob.Some?
  }

  function Add(v: Pkg, a: Addition): Pkg {
    match a
    case DepCall(dep) => WithDep(v, dep)
    case FileCall(path, sha256) => WithFile(v, path, sha256)
    case ConflictCall(glob) => WithConflict(v, glob)
  }

  /** The record after the calls `calls`, in order. */
  function AddAll(v: Pkg, calls: seq<Addition>): Pkg
    decreases |calls|
  {
    if calls == [] then v else AddAll(Add(v, calls[0]), calls[1..])
  }

  /** The dependencies the successful pkg_adddep calls pass, in call order. */
  function DepsAdded(calls: seq<Addition>): seq<Pkg> {
    if calls == [] then []
    else (if calls[0].DepCall? && calls[0].dep.Some? then [calls[0].dep.value] else [])
         + DepsAdded(calls[1..])
  }

  /** The file records the successful pkg_addfile calls build, in call order. */
  function FilesAdded(calls: seq<Addition>): seq<PkgFile> {
    if calls == [] then []
    else (if calls[0].FileCall? && Succeeds(calls[0])
          then [NewFile(calls[0].path.value, calls[0].sha256.value)] else [])
         + FilesAdded(calls[1..])
  }

  /** The conflicts the successful pkg_addconflict calls build, in call order. */
  function ConflictsAdded(calls: seq<Addition>): seq<Conflict> {
    if calls == [] then []
    else (if calls[0].ConflictCall? && calls[0].glob.Some? then [Conflict(calls[0].glob.value)] else [])
         + ConflictsAdded(calls[1..])
  }

  /** The number of calls that return 0. */
  function Successes(calls: seq<Addition>): nat {
    if calls == [] then 0 else (if Succeeds(calls[0]) then 1 else 0) + Successes(calls[1..])
  }

  /**
   * Any sequence of adder calls appends to each collection exactly the
   * elements of its successful calls, in call order, and changes nothing else.
   */
  lemma {:induction false} AddAllAppends(v: Pkg, calls: seq<Addition>)
    ensures AddAll(v, calls) == v.(deps := v.deps + DepsAdded(calls),
                                   files := v.files + FilesAdded(calls),
                                   conflicts := v.conflicts + ConflictsAdded(calls))
    decreases |calls|
  {
    if calls != [] {
      AddAllAppends(Add(v, calls[0]), calls[1..]);
      var w := Add(v, calls[0]);
      match calls[0]
      case DepCall(dep) =>
        assert w.deps == v.deps + DepsAdded(calls[..1]);
      case FileCall(path, sha256) =>
        assert w.files == v.files + FilesAdded(calls[..1]);
      case ConflictCall(glob) =>
        assert w.conflicts == v.conflicts + ConflictsAdded(calls[..1]);
    }
  }

  /** The three collections together grow by the number of calls that return 0. */
  lemma {:induction false} AddedCount(calls: seq<Addition>)
    ensures |DepsAdded(calls)| + |FilesAdded(calls)| + |ConflictsAdded(calls)| == Successes(calls)
    decreases |calls|
  {
    if calls != [] {
      AddedCount(calls[1..]);
    }
  }

  /** A package record (struct pkg), updated in place. */
  class Package {
    var kind: Kind
    var name: string
    var version: string
    var origin: string
    var comment: string
    var desc: string
    var deps: seq<Pkg>
    var rdeps: seq<Pkg>
    var conflicts: seq<Conflict>
    var files: seq<PkgFile>

    /** What the record currently holds. */
    function Value(): Pkg
      reads this
    {
      Pkg(kind, name, version, origin, comment, desc, deps, rdeps, conflicts, files)
    }

    /** pkg_new: every text empty, every collection empty. */
    constructor ()
      ensures Value() == Empty()
    {
      kind := File;
      name, version, origin, comment, desc := "", "", "", "", "";
      deps, rdeps, conflicts, files := [], [], [], [];
    }

    // Read accessors: borrowed views of the fields.

    function Type(): Kind reads this { kind }
    function Origin(): string reads this { origin }
    function Name(): string reads this { name }
    function Version(): string reads this { version }
    function Comment(): string reads this { comment }
    function Desc(): string reads this { desc }
    function Deps(): seq<Pkg> reads this { deps }
    function Rdeps(): seq<Pkg> reads this { rdeps }
    function Files(): seq<PkgFile> reads this { files }
    function Conflicts(): seq<Conflict> reads this { conflicts }

    /** pkg_numdeps: the length of the view pkg_deps returns. */
    function NumDeps(): (n: nat)
      reads this
      ensures n == |Deps()|
    {
      |deps|
    }

    // Setters: a NULL argument is refused; otherwise the old text is cleared
    // and the new one written.

    method SetName(s: Option<CStr>) returns (rc: int)
      modifies this
      ensures s.None? ==> rc == -1 && Value() == old(Value())
      ensures s.Some? ==> rc == 0 && Name() == s.value && Value() == old(Value()).(name := s.value)
    {
      if s.None? {
        return -1;
      }
      name := s.value;
      return 0;
    }

    method SetVersion(s: Option<CStr>) returns (rc: int)
      modifies this
      ensures s.None? ==> rc == -1 && Value() == old(Value())
      ensures s.Some? ==> rc == 0 && Version() == s.value && Value() == old(Value()).(version := s.value)
    {
      if s.None? {
        return -1;
      }
      version := s.value;
      return 0;
    }

    method SetComment(s: Option<CStr>) returns (rc: int)
      modifies this
      ensures s.None? ==> rc == -1 && Value() == old(Value())
      ensures s.Some? ==> rc == 0 && Comment() == s.value && Value() == old(Value()).(comment := s.value)
    {
      if s.None? {
        return -1;
      }
      comment := s.value;
      return 0;
    }

    method SetOrigin(s: Option<CStr>) returns (rc: int)
      modifies this
      ensures s.None? ==> rc == -1 && Value() == old(Value())
      ensures s.Some? ==> rc == 0 && Origin() == s.value && Value() == old(Value()).(origin := s.value)
    {
      if s.None? {
        return -1;
      }
      origin := s.value;
      return 0;
    }

    method SetDesc(s: Option<CStr>) returns (rc: int)
      modifies this
      ensures s.None? ==> rc == -1 && Value() == old(Value())
      ensures s.Some? ==> rc == 0 && Desc() == s.value && Value() == old(Value()).(desc := s.value)
    {
      if s.None? {
        return -1;
      }
      desc := s.value;
      return 0;
    }

    // Adders: a NULL argument is refused; otherwise the collection (made
    // ready on first use) gets one more element at its end.

    method AddDep(dep: Option<Pkg>) returns (rc: int)
      modifies this
      ensures rc == (if dep.Some? then 0 else -1)
      ensures Value() == WithDep(old(Value()), dep)
    {
      if dep.None? {
        return -1;
      }
      deps := deps + [dep.value];
      return 0;
    }

    method AddFile(path: Option<CStr>, sha256: Option<CStr>) returns (rc: int)
      modifies this
      ensures rc == (if path.Some? && sha256.Some? then 0 else -1)
      ensures Value() == WithFile(old(Value()), path, sha256)
    {
      if path.None? || sha256.None? {
        return -1;
      }
      var file := PkgFile(Strlcpy(path.value, PATH_CAP), Strlcpy(sha256.value, SHA_CAP));
      files := files + [file];
      return 0;
    }

    method AddConflict(glob: Option<CStr>) returns (rc: int)
      modifies this
      ensures rc == (if glob.Some? then 0 else -1)
      ensures Value() == WithConflict(old(Value()), glob)
    {
      if glob.None? {
        return -1;
      }
      conflicts := conflicts + [Conflict(glob.value)];
      return 0;
    }

    /** Empties every text field and releases the elements of every collection. */
    method Clear()
      modifies this
      ensures Value() == Cleared(old(Value()))
    {
      name, version, origin, comment, desc := "", "", "", "", "";
      deps, rdeps, conflicts, files := [], [], [], [];
    }
  }

  /** pkg_reset: a NULL record is left alone; otherwise it is emptied in place. */
  method Reset(pkg: Package?)
    modifies pkg
    ensures pkg != null ==> pkg.Value() == Cleared(old(pkg.Value()))
  {
    if pkg == null {
      return;
    }
    pkg.Clear();
  }

  /**
   * pkg_free: a NULL record is left alone; otherwise everything the record
   * owns is released. It differs from Reset only in deallocating the record
   * itself afterwards, which cannot be expressed here.
   */
  method Free(pkg: Package?)
    modifies pkg
    ensures pkg != null ==> pkg.Value() == Cleared(old(pkg.Value()))
  {
    Reset(pkg);
  }
}
