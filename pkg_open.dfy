/**
 * The entry loop of pkg_open: the archive's entries are read in order;
 * "+DESC" extends the description, "+MANIFEST" goes to the manifest parser,
 * other "+" entries are skipped and every other entry becomes a file record.
 */
module PkgOpen {
  import opened CModel
  import opened PkgRecord

  /** One archive entry: its path name and the bytes read from its payload. */
  datatype Entry = Entry(pathname: CStr, payload: string)

  /** The status that ends the header loop: anything but ARCHIVE_OK. */
  datatype Status = Eof | Warn | Retry | Fatal

  /** The archive as the reader sees it. */
  datatype Archive =
    | Unreadable
    | Readable(entries: seq<Entry>, stop: Status)

  /** The fields the manifest parser fills in. */
  datatype Manifest = Manifest(name: string, version: string, origin: string, comment: string, deps: seq<Pkg>)

  /** pkg_parse_manifest: from the current fields and the manifest text to the new fields. */
  type Parser = (Manifest, CStr) -> Manifest

  const DESC_ENTRY: string := "+DESC"
  const MANIFEST_ENTRY: string := "+MANIFEST"

  /** Metadata entries are those whose name starts with '+'. */
  predicate IsMeta(pathname: string) {
    |pathname| > 0 && pathname[0] == '+'
  }

  /** A metadata entry that is neither the description nor the manifest. */
  predicate IsOtherMeta(pathname: string) {
    IsMeta(pathname) && pathname != DESC_ENTRY && pathname != MANIFEST_ENTRY
  }

  /** The record before the first entry: fresh, tagged File, collections empty. */
  function Start(): Pkg {
    Empty().(kind := File)
  }

  function ManifestOf(v: Pkg): Manifest {
    Manifest(v.name, v.version, v.origin, v.comment, v.deps)
  }

  function WithManifest(v: Pkg, m: Manifest): Pkg {
    v.(name := m.name, version := m.version, origin := m.origin, comment := m.comment, deps := m.deps)
  }

  /** The file record for a payload entry; its checksum is left empty. */
  function EntryFile(e: Entry): PkgFile {
    PkgFile(Strlcpy(e.pathname, PATH_CAP), "")
  }

  /** One iteration of the header loop. */
  function Step(acc: Pkg, e: Entry, parse: Parser): Pkg {
    var acc1 := if e.pathname == DESC_ENTRY then acc.(desc := acc.desc + CPrefix(e.payload)) else acc;
    var acc2 := if e.pathname == MANIFEST_ENTRY then WithManifest(acc1, parse(ManifestOf(acc1), CPrefix(e.payload))) else acc1;
    if IsMeta(e.pathname) then acc2 else acc2.(files := acc2.files + [EntryFile(e)])
  }

  /** The record after the header loop has gone through `es`. */
  function Ingest(acc: Pkg, es: seq<Entry>, parse: Parser): Pkg
    decreases |es|
  {
    if es == [] then acc else Ingest(Step(acc, es[0], parse), es[1..], parse)
  }

  /** The file records of the payload entries, in archive order. */
  function FileEntries(es: seq<Entry>): seq<PkgFile> {
    if es == [] then []
    else (if IsMeta(es[0].pathname) then [] else [EntryFile(es[0])]) + FileEntries(es[1..])
  }

  /** The text of every "+DESC" entry, in archive order. */
  function DescText(es: seq<Entry>): string {
    if es == [] then []
    else (if es[0].pathname == DESC_ENTRY then CPrefix(es[0].payload) else []) + DescText(es[1..])
  }

  /** The texts handed to the manifest parser, in archive order. */
  function ManifestInputs(es: seq<Entry>): seq<CStr> {
    if es == [] then []
    else (if es[0].pathname == MANIFEST_ENTRY then [CPrefix(es[0].payload)] else []) + ManifestInputs(es[1..])
  }

  /** The fields after the parser has run over `inputs`, in order. */
  function ParseAll(parse: Parser, m: Manifest, inputs: seq<CStr>): Manifest
    decreases |inputs|
  {
    if inputs == [] then m else ParseAll(parse, parse(m, inputs[0]), inputs[1..])
  }

  /** The archive with its other metadata entries removed. */
  function WithoutOtherMeta(es: seq<Entry>): seq<Entry> {
    if es == [] then []
    else (if IsOtherMeta(es[0].pathname) then [] else [es[0]]) + WithoutOtherMeta(es[1..])
  }

  /** The files collection gains exactly the payload entries, truncated, in archive order. */
  lemma {:induction false} IngestFiles(acc: Pkg, es: seq<Entry>, parse: Parser)
    ensures Ingest(acc, es, parse).files == acc.files + FileEntries(es)
    decreases |es|
  {
    if es != [] {
      IngestFiles(Step(acc, es[0], parse), es[1..], parse);
    }
  }

  /**
   * The description gains the text of each "+DESC" entry, in archive order.
   * Nothing else writes the description, because the parser can only write
   * the Manifest fields.
   */
  lemma {:induction false} IngestDesc(acc: Pkg, es: seq<Entry>, parse: Parser)
    ensures Ingest(acc, es, parse).desc == acc.desc + DescText(es)
    decreases |es|
  {
    if es != [] {
      IngestDesc(Step(acc, es[0], parse), es[1..], parse);
    }
  }

  /**
   * The manifest fields are exactly what the parser makes of the "+MANIFEST"
   * texts, in archive order: no other entry reaches the parser or the fields.
   */
  lemma {:induction false} IngestManifest(acc: Pkg, es: seq<Entry>, parse: Parser)
    ensures ManifestOf(Ingest(acc, es, parse)) == ParseAll(parse, ManifestOf(acc), ManifestInputs(es))
    decreases |es|
  {
    if es != [] {
      var e, rest := es[0], es[1..];
      IngestManifest(Step(acc, e, parse), rest, parse);
      if e.pathname == MANIFEST_ENTRY {
        assert ManifestInputs(es) == [CPrefix(e.payload)] + ManifestInputs(rest);
        assert ([CPrefix(e.payload)] + ManifestInputs(rest))[1..] == ManifestInputs(rest);
      } else {
        assert ManifestOf(Step(acc, e, parse)) == ManifestOf(acc);
        assert ManifestInputs(es) == ManifestInputs(rest);
      }
    }
  }

  /**
   * Kind, reverse dependencies and conflicts are left as they were. This rests
   * on the Parser type: the parser can only write the Manifest fields.
   */
  lemma {:induction false} IngestKeeps(acc: Pkg, es: seq<Entry>, parse: Parser)
    ensures Ingest(acc, es, parse).kind == acc.kind
    ensures Ingest(acc, es, parse).rdeps == acc.rdeps
    ensures Ingest(acc, es, parse).conflicts == acc.conflicts
    decreases |es|
  {
    if es != [] {
      IngestKeeps(Step(acc, es[0], parse), es[1..], parse);
    }
  }

  /** Metadata entries other than "+DESC" and "+MANIFEST" contribute nothing. */
  lemma {:induction false} IngestIgnoresOtherMeta(acc: Pkg, es: seq<Entry>, parse: Parser)
    ensures Ingest(acc, es, parse) == Ingest(acc, WithoutOtherMeta(es), parse)
    decreases |es|
  {
    if es != [] {
      if IsOtherMeta(es[0].pathname) {
        assert Step(acc, es[0], parse) == acc;
        assert WithoutOtherMeta(es) == WithoutOtherMeta(es[1..]);
        IngestIgnoresOtherMeta(acc, es[1..], parse);
      } else {
        IngestIgnoresOtherMeta(Step(acc, es[0], parse), es[1..], parse);
        var rest := WithoutOtherMeta(es[1..]);
        assert WithoutOtherMeta(es) == [es[0]] + rest;
        assert ([es[0]] + rest)[1..] == rest;
      }
    }
  }

  /**
   * A fresh record read from an archive holding a description, a manifest
   * and two payload files: the description is the "+DESC" text and the
   * files are the two payload paths in archive order, whatever the parser does.
   */
  lemma SampleArchive(parse: Parser, es: seq<Entry>)
    requires es == SampleEntries()
    ensures Ingest(Start(), es, parse).desc == "A sample package"
    ensures Ingest(Start(), es, parse).files == [PkgFile("bin/foo", ""), PkgFile("share/doc/foo.txt", "")]
    ensures Ingest(Start(), es, parse).kind == File
  {
    IngestDesc(Start(), es, parse);
    IngestFiles(Start(), es, parse);
    IngestKeeps(Start(), es, parse);
    SampleParts(es);
  }

  /** Description, manifest, then two payload files. */
  function SampleEntries(): seq<Entry> {
    [Entry("+DESC", "A sample package"), Entry("+MANIFEST", "name: foo"),
     Entry("bin/foo", ""), Entry("share/doc/foo.txt", "")]
  }

  /** The description text and payload files of the sample archive. */
  lemma SampleParts(es: seq<Entry>)
    requires es == SampleEntries()
    ensures DescText(es) == "A sample package"
    ensures FileEntries(es) == [PkgFile("bin/foo", ""), PkgFile("share/doc/foo.txt", "")]
  {
    var e2, e3 := es[2], es[3];
    assert es[1..][1..] == [e2, e3] && [e2, e3][1..] == [e3] && [e3][1..] == [];
    assert DescText([e3]) == [];
    assert DescText([e2, e3]) == [];
    assert DescText(es[1..]) == [];
    assert NoNul(es[0].payload);
    assert FileEntries([e3]) == [PkgFile("share/doc/foo.txt", "")];
    assert FileEntries([e2, e3]) == [PkgFile("bin/foo", "")] + FileEntries([e3]);
    assert FileEntries(es[1..]) == FileEntries([e2, e3]);
  }

  /**
   * pkg_open on the archive as read from its path. An archive that cannot be
   * opened gives -1 and no record. Otherwise the result is 0 with the record
   * built by the header loop; `corrupted` (the "Archive corrupted" warning)
   * is set when the loop stopped on anything but end of archive, and the
   * partially built record is still returned.
   */
  method Open(archive: Archive, parse: Parser) returns (rc: int, pkg: Package?, corrupted: bool)
    ensures archive.Unreadable? ==> rc == -1 && pkg == null && !corrupted
    ensures archive.Readable? ==>
      rc == 0 && pkg != null && fresh(pkg) &&
      pkg.Value() == Ingest(Start(), archive.entries, parse) &&
      corrupted == (archive.stop != Eof)
  {
    if archive.Unreadable? {
      return -1, null, false;
    }
    pkg := new Package();
    pkg.kind := File;
    // The three arrays are made ready here; an empty sequence already is.

    var es := archive.entries;
    var i := 0;
    while i < |es|
      invariant 0 <= i <= |es|
      invariant Ingest(pkg.Value(), es[i..], parse) == Ingest(Start(), es, parse)
    {
      var e := es[i];
      ghost var before := pkg.Value();
      if e.pathname == DESC_ENTRY {
        pkg.desc := pkg.desc + CPrefix(e.payload);
      }
      if e.pathname == MANIFEST_ENTRY {
        var m := parse(ManifestOf(pkg.Value()), CPrefix(e.payload));
        pkg.name, pkg.version, pkg.origin, pkg.comment, pkg.deps := m.name, m.version, m.origin, m.comment, m.deps;
      }
      if IsMeta(e.pathname) {
        assert pkg.Value() == Step(before, e, parse);
        assert es[i..][1..] == es[i + 1..];
        i := i + 1;
        continue;
      }
      pkg.files := pkg.files + [PkgFile(Strlcpy(e.pathname, PATH_CAP), "")];
      assert pkg.Value() == Step(before, e, parse);
      assert es[i..][1..] == es[i + 1..];
      i := i + 1;
    }
    corrupted := archive.stop != Eof;
    rc := 0;
  }
}
