/**
 * pkg_resolvdeps: each dependency stub is looked up by origin in the
 * installed-package database and replaced, at the same index, by the match
 * tagged Installed, or re-tagged NotFound when there is none.
 */
module PkgResolve {
  import opened CModel
  import opened PkgRecord

  /**
   * The database queried with exact matching on origin: the first package
   * the query's iterator yields, or None when it yields nothing.
   */
  type Database = string -> Option<Pkg>

  /** A database whose matches carry the origin they were looked up by. */
  ghost predicate ExactMatch(db: Database) {
    forall o: string :: db(o).Some? ==> db(o).value.origin == o
  }

  /** What one dependency becomes. */
  function ResolveEntry(d: Pkg, db: Database): Pkg {
    match db(d.origin)
    case Some(p) => p.(kind := Installed)
    case None => d.(kind := NotFound)
  }

  /** The dependency list after resolution, as a reference definition. */
  function Resolved(ds: seq<Pkg>, db: Database): seq<Pkg> {
    if ds == [] then [] else [ResolveEntry(ds[0], db)] + Resolved(ds[1..], db)
  }

  /** Resolution neither adds nor removes dependencies. */
  lemma {:induction false} ResolvedLength(ds: seq<Pkg>, db: Database)
    ensures |Resolved(ds, db)| == |ds|
  {
    if ds != [] {
      ResolvedLength(ds[1..], db);
    }
  }

  /** Resolution keeps the order: entry i comes from dependency i alone. */
  lemma {:induction false} ResolvedAt(ds: seq<Pkg>, db: Database, i: nat)
    requires i < |ds|
    ensures |Resolved(ds, db)| == |ds|
    ensures Resolved(ds, db)[i] == ResolveEntry(ds[i], db)
  {
    ResolvedLength(ds, db);
    if i > 0 {
      ResolvedAt(ds[1..], db, i - 1);
    }
  }

  /**
   * Every resolved entry is classified: Installed exactly when the database
   * matches its origin, and then it is that match; otherwise NotFound, and
   * then it is the old stub with only its kind changed.
   */
  lemma ResolvedOutcome(ds: seq<Pkg>, db: Database, i: nat)
    requires i < |ds|
    ensures |Resolved(ds, db)| == |ds|
    ensures Resolved(ds, db)[i].kind == Installed <==> db(ds[i].origin).Some?
    ensures Resolved(ds, db)[i].kind == NotFound <==> db(ds[i].origin).None?
    ensures db(ds[i].origin).Some? ==> Resolved(ds, db)[i] == db(ds[i].origin).value.(kind := Installed)
    ensures db(ds[i].origin).None? ==> Resolved(ds, db)[i] == ds[i].(kind := NotFound)
  {
    ResolvedAt(ds, db, i);
  }

  /** With exact matching, resolving a second time changes nothing. */
  lemma {:induction false} ResolveIdempotent(ds: seq<Pkg>, db: Database)
    requires ExactMatch(db)
    ensures Resolved(Resolved(ds, db), db) == Resolved(ds, db)
  {
    if ds != [] {
      ResolveIdempotent(ds[1..], db);
      var d := ds[0];
      assert ResolveEntry(ResolveEntry(d, db), db) == ResolveEntry(d, db) by {
        if db(d.origin).Some? {
          assert db(d.origin).value.origin == d.origin;
        }
      }
    }
  }

  /**
   * pkg_resolvdeps. Two deviations from the C code: the source allocates the
   * result record once, before the loop, and lets every iteration reuse it,
   * whereas here each match is a record of its own; and the source walks the
   * array until it meets a NULL entry, whereas here the loop runs over the
   * length of the dependency sequence.
   */
  method ResolveDeps(pkg: Package, db: Database) returns (rc: int)
    modifies pkg
    ensures rc == 0
    ensures pkg.Value() == old(pkg.Value()).(deps := Resolved(old(pkg.deps), db))
  {
    ghost var stubs := pkg.deps;
    var i := 0;
    while i < |pkg.deps|
      invariant 0 <= i <= |pkg.deps| == |stubs|
      invariant forall k :: 0 <= k < i ==> pkg.deps[k] == ResolveEntry(stubs[k], db)
      invariant forall k :: i <= k < |pkg.deps| ==> pkg.deps[k] == stubs[k]
      invariant pkg.Value() == old(pkg.Value()).(deps := pkg.deps)
    {
      var dep := pkg.deps[i];
      var found := db(dep.origin);
      if found.Some? {
        var p := found.value.(kind := Installed);
        pkg.deps := pkg.deps[i := p];
      } else {
        pkg.deps := pkg.deps[i := dep.(kind := NotFound)];
      }
      i := i + 1;
    }
    ResolvedLength(stubs, db);
    forall k | 0 <= k < |stubs|
      ensures pkg.deps[k] == Resolved(stubs, db)[k]
    {
      ResolvedAt(stubs, db, k);
    }
    return 0;
  }
}
