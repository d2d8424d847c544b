# Package record layer of libpkg, in Dafny

This project models `libpkg/pkg.c`, the in-memory package record of a binary
package manager. It covers four parts:

- **The package record.** It has a kind tag, five text fields (name, version,
  origin, comment, description) and four owned, ordered collections
  (dependencies, reverse dependencies, conflicts, files).
- **Operations on the record.** The model covers the setters, the adders,
  `pkg_new`, `pkg_reset` and `pkg_free`.
- **The archive ingestor.** This is the header loop of `pkg_open`. It turns the
  entries of a package archive into a record.
- **The dependency resolver `pkg_resolvdeps`.** It rewrites each dependency stub
  in place. A stub becomes the installed package the database matches by origin,
  or it is re-tagged as not found.

Modules:

- `CModel` (`cmodel.dfy`) covers the C notions the code relies on:
  - `Option` stands for a pointer argument that may be NULL.
  - `CStr` is the content of a NUL-terminated string.
  - `CPrefix` is what a C string function sees of a zero-filled buffer.
  - `Strlcpy` is the bounded copy into a fixed buffer.
- `PkgRecord` (`pkg_record.dfy`) has the value view `Pkg` and the mutable record
  `Package`. `Package` is a class with the fields of `struct pkg`; its setters,
  adders and `Clear` update those fields in place. `Reset` and `Free` take a
  record that may be NULL.
  - The read accessors `Type`, `Origin`, `Name`, `Version`, `Comment`, `Desc`,
    `Deps`, `Rdeps`, `Files` and `Conflicts` (pkg.c:13-52, 85-101) are the field
    projections used in the contracts. So is `NumDeps` (pkg.c:54-58), the
    length of the `Deps` view.
  - Each mutating method ties `Value()` after the call to `Value()` before it.
  - Value-level functions (`WithDep`, `WithFile`, `WithConflict`, `Cleared`)
    state what one call does. `AddAll` covers any sequence of adder calls.
- `PkgResolve` (`pkg_resolve.dfy`) has the resolver. The method `ResolveDeps` is
  proved against the reference function `Resolved`.
- `PkgOpen` (`pkg_open.dfy`) has the ingestor. The method `Open` is proved
  against the fold `Ingest` over the entry sequence.

External collaborators become parameters:

- **The database** is a function from an origin to the first exact match, if
  there is one.
- **The manifest parser** is a function from the current manifest fields and the
  manifest text to the new fields. The model assumes `pkg_parse_manifest`
  writes only name, version, origin, comment and dependencies, so the kind,
  description, reverse dependencies, conflicts and files are out of its reach.
- **The archive** is either unreadable, or a sequence of (path name, payload)
  entries plus the status that ended the header loop.

Deviations and choices:

- **`pkg_resolvdeps`, one record per match.** The source allocates its result
  record `p` once, before the loop, and reuses it in every iteration. The model
  gives each match a record of its own.
- **`pkg_resolvdeps`, loop bound.** The source walks the array until it meets a
  NULL entry. The model runs over the length of the dependency sequence. Both
  deviations are also noted in a comment on `ResolveDeps`.
- **`pkg_reset` keeps the kind.** `pkg_reset` does not touch the record's
  `type` field, so the model keeps the kind.
- **Any stop other than end-of-archive sets `corrupted`.** The code warns
  whenever the header loop stops on anything but `ARCHIVE_EOF`, even before the
  first entry; this also covers `ARCHIVE_WARN`. `Open` reports that warning as
  its `corrupted` result.
- **Files from the archive get an empty checksum.** The checksum of a file
  record is a fixed buffer. For archive entries the code never writes it, so it
  stays as `pkg_file_new` leaves it. The model takes that to be the empty
  string.
- **Assumed constants.** `libpkg/pkg_private.h` and `pkg.h` are not part of this
  model, so three values are assumed:
  - `PATH_CAP = 1024` (MAXPATHLEN) for the path buffer of `struct pkg_file`.
  - `SHA_CAP = 65` for its checksum buffer: 64 hex digits and the terminator.
  - The kind of a zero-filled record from `pkg_new` is `File`, taken to be the
    first `pkg_t` value.

## Model

| member | source | states |
|---|---|---|
| CModel.CPrefix | libpkg/pkg.c:143-147 | the text `sbuf_cat` takes from the zero-filled payload buffer is the longest NUL-free prefix of the payload; it is the whole payload when that holds no NUL |
| CModel.Strlcpy | libpkg/pkg.c:353-354 | the copied string is a prefix of the source shorter than the capacity; it is the whole source when the source fits, and capacity minus one characters otherwise |
| PkgRecord.Cleared | libpkg/pkg.c:196-211 | after a reset all five text fields are empty and all four collections have length 0, while the kind is kept |
| PkgRecord.WithDep | libpkg/pkg.c:333-342 | a NULL dependency changes nothing; otherwise `deps` grows by exactly one with the dependency last, the earlier entries are kept, and no other field changes |
| PkgRecord.WithFile | libpkg/pkg.c:345-360 | a NULL path or checksum changes nothing; otherwise `files` grows by one whose path and checksum are the strlcpy-truncated arguments, the earlier files are kept, and no other field changes |
| PkgRecord.WithConflict | libpkg/pkg.c:363-378 | a NULL glob changes nothing; otherwise `conflicts` grows by one whose glob is the given text, the earlier entries are kept, and no other field changes |
| PkgRecord.AddAllAppends | libpkg/pkg.c:333-378 | for any sequence of adder calls, each collection is its old content followed by the elements of its successful calls in call order; nothing else changes |
| PkgRecord.AddedCount | libpkg/pkg.c:333-378 | the collections together grow by exactly the number of calls that return 0 |
| PkgRecord.Package.constructor | libpkg/pkg.c:180-193 | `pkg_new` gives a record with empty text fields and empty collections |
| PkgRecord.Package.SetName | libpkg/pkg.c:241-254 | NULL returns -1 and leaves the record unchanged; otherwise returns 0, the name reads exactly the new text (no concatenation with the old), and no other field changes |
| PkgRecord.Package.SetVersion | libpkg/pkg.c:256-269 | as for the name, on the version field |
| PkgRecord.Package.SetComment | libpkg/pkg.c:271-284 | as for the name, on the comment field |
| PkgRecord.Package.SetOrigin | libpkg/pkg.c:286-299 | as for the name, on the origin field |
| PkgRecord.Package.SetDesc | libpkg/pkg.c:317-330 | as for the name, on the description field |
| PkgRecord.Package.AddDep | libpkg/pkg.c:332-342 | returns -1 exactly for NULL, and the new record is `WithDep` of the old |
| PkgRecord.Package.AddFile | libpkg/pkg.c:344-360 | returns -1 exactly when an argument is NULL, and the new record is `WithFile` of the old |
| PkgRecord.Package.AddConflict | libpkg/pkg.c:362-378 | returns -1 exactly for NULL, and the new record is `WithConflict` of the old |
| PkgRecord.Package.Clear | libpkg/pkg.c:201-210 | the record in place becomes `Cleared` of its old value |
| PkgRecord.Reset | libpkg/pkg.c:195-211 | a NULL record is left alone; a non-NULL one becomes `Cleared` of its old value |
| PkgRecord.Free | libpkg/pkg.c:213-231 | a NULL record is left alone; for a non-NULL one everything the record owns is released |
| PkgResolve.ResolvedLength | libpkg/pkg.c:67-80 | resolution keeps the number of dependencies |
| PkgResolve.ResolvedAt | libpkg/pkg.c:69-80 | resolution keeps the order: entry i is the resolution of dependency i alone |
| PkgResolve.ResolvedOutcome | libpkg/pkg.c:70-78 | entry i is Installed exactly when the database matches its origin, and then it is that match tagged Installed; otherwise it is NotFound, the old stub with only its kind changed, so its origin stays readable |
| PkgResolve.ResolveIdempotent | libpkg/pkg.c:70-78 | with exact matching on origin, resolving an already resolved list changes nothing |
| PkgResolve.ResolveDeps | libpkg/pkg.c:60-83 | always returns 0; the dependency sequence becomes `Resolved` of the old one, and nothing else in the record changes |
| PkgOpen.IngestFiles | libpkg/pkg.c:159-169 | `files` gains exactly the entries whose names do not start with '+', as truncated paths, in archive order |
| PkgOpen.IngestDesc | libpkg/pkg.c:142-149 | the description gains the text of each "+DESC" entry in archive order, so a fresh record's description is the "+DESC" payload up to its first NUL |
| PkgOpen.IngestManifest | libpkg/pkg.c:151-157 | the manifest fields are what the parser makes of the "+MANIFEST" texts in archive order; no other entry reaches the parser |
| PkgOpen.IngestKeeps | libpkg/pkg.c:134-170 | the header loop keeps the kind, the reverse dependencies and the conflicts |
| PkgOpen.IngestIgnoresOtherMeta | libpkg/pkg.c:159-162 | removing the '+' entries other than "+DESC" and "+MANIFEST" from the archive does not change the result |
| PkgOpen.SampleArchive | libpkg/pkg.c:141-170 | for an archive holding "+DESC", "+MANIFEST", "bin/foo" and "share/doc/foo.txt", the description is the "+DESC" text and the files are the two paths in order, whatever the parser does |
| PkgOpen.Open | libpkg/pkg.c:103-178 | an unreadable archive gives -1 and no record; otherwise 0 and a fresh record of kind File that is `Ingest` of the entries from an empty start; the corruption warning is raised exactly when the loop stopped on anything but end of archive, and the partial record is still returned |

## Left out

- Remote sources (pkg.c:113-118) are left out. This covers the `http://`, `https://` and `ftp://` test and the fetch to `/tmp/bla`, which are network I/O. `Open` starts from the archive as read from a local path. The unused `query_flags` argument is also dropped.
- The libarchive calls are foreign I/O. This covers reading, compression support, format selection, data reads and skips. An archive is an entry sequence and a terminal status. A payload is the bytes the data read returned, and the size from the entry header is not modelled.
- `pkg_setdesc_from_file` and `file_to_buffer` (pkg.c:301-315) are left out because they are file I/O.
- The database query, its iterator and the iterator's release, and `pkg_parse_manifest`, are external collaborators. They are abstract function parameters. A query that fails outright is not modelled.
- Allocation is not modelled: `calloc` failure and the `err(EXIT_FAILURE)` exit, and the `sbuf_*` and `array_*` internals.
- Lazy array initialisation is not modelled: an array that was never initialised and an empty one are both the empty sequence. So the NULL that `pkg_deps` and the other collection accessors return for a never-initialised array is not distinguished.
- Strlcpy: text is modelled as characters, not bytes, so truncation counts characters. For a path whose UTF-8 encoding is longer than its character count, the source keeps `PATH_CAP - 1` bytes and may cut a character in half. The model keeps `PATH_CAP - 1` characters. The same holds for the checksum and `SHA_CAP`.
- sbuf text fields are strings. The finished flag of an sbuf, and so the difference between an unset field and one set to the empty string, is not modelled.
- Free: Dafny has no deallocation. For a non-NULL record the model only releases what the record owns (texts and the four collections), and the shell stays allocated. Use after free and the recursive release of nested records are not modelled.
- ResolveDeps: does not reproduce the source's reuse of a single result record across iterations, or its scan to a NULL entry. It models a fresh record per match over the sequence length, as described above.
- ResolveDeps: does not model the crash on a record whose dependency array was never initialised. The source then gets NULL from `pkg_deps` and dereferences it at pkg.c:69. The model treats such a record as having no dependencies and returns 0.
- The `warn` and `printf` diagnostics are not modelled. The corruption warning is the `corrupted` result of `Open`.
