/** The filestore archive: the member list a backup writes and the extraction a restore performs. */
module Filestore {
  import opened Common

  const MAX_ARCHIVE_MEMBERS: nat := 1_000_000
  const MAX_EXTRACTED_BYTES: nat := 50 * 1024 * 1024 * 1024
  const CHUNK: nat := 1024 * 1024

  type Byte = b: nat | b < 256
  type Path = seq<string>

  /** A filestore of plain files and directories, without hard links. */
  datatype Tree = File(data: seq<Byte>) | Dir(entries: Forest)
  datatype Forest = Nil | Cons(name: string, tree: Tree, rest: Forest)

  datatype MemberKind = Regular | Directory | Symlink | Hardlink | Device | Fifo | Unknown

  /** A tar member: `size` is the header's, `data` what reading its content yields. */
  datatype Member = Member(name: string, kind: MemberKind, size: nat, data: seq<Byte>)

  /** An entry below the staging directory; the staging directory itself is the path []. */
  datatype Entry = FileEntry(data: seq<Byte>) | DirEntry

  type Files = map<Path, Entry>

  datatype Error =
    | TooManyMembers | UnsafeMember | PathTraversal | RootMismatch | RootInvalid
    | DuplicateMember | TooLarge | Truncated | Oversized | ArchiveInvalid

  // ---------------------------------------------------------------------------------------
  // Names
  // ---------------------------------------------------------------------------------------

  /** Python's str.split("/"). */
  function Split(s: string): (r: seq<string>)
    ensures |r| >= 1
  {
    if s == "" then [""]
    else if s[0] == '/' then [""] + Split(s[1..])
    else var r := Split(s[1..]); [[s[0]] + r[0]] + r[1..]
  }

  /** The parts PurePosixPath keeps: neither empty nor ".". */
  function Kept(parts: seq<string>): seq<string> {
    if parts == [] then []
    else if parts[0] in {"", "."} then Kept(parts[1..])
    else [parts[0]] + Kept(parts[1..])
  }

  function Parts(name: string): seq<string> { Kept(Split(name)) }

  predicate SafeName(s: string) { s !in {"", ".", ".."} && '/' !in s }

  predicate SafePath(p: Path) { forall i :: 0 <= i < |p| ==> SafeName(p[i]) }

  function Join(p: Path): string
    requires p != []
  {
    if |p| == 1 then p[0] else p[0] + "/" + Join(p[1..])
  }

  lemma {:induction false} SplitFirst(a: string, b: string)
    requires '/' !in a
    ensures Split(a + "/" + b) == [a] + Split(b)
  {
    var s := a + "/" + b;
    if a == "" {
      assert s[1..] == b;
    } else {
      SplitFirst(a[1..], b);
      assert s[1..] == a[1..] + "/" + b;
      assert [a[0]] + a[1..] == a;
    }
  }

  lemma {:induction false} SplitWhole(a: string)
    requires '/' !in a
    ensures Split(a) == [a]
  {
    if a != "" {
      SplitWhole(a[1..]);
      assert [a[0]] + a[1..] == a;
    }
  }

  /** Joining safe names and taking the name apart again loses nothing. */
  lemma {:induction false} PartsOfJoin(p: Path)
    requires p != [] && SafePath(p)
    ensures Parts(Join(p)) == p
  {
    if |p| == 1 {
      SplitWhole(p[0]);
      assert Kept([p[0]]) == [p[0]] + Kept([]);
    } else {
      PartsOfJoin(p[1..]);
      SplitFirst(p[0], Join(p[1..]));
      var rest := Split(Join(p[1..]));
      assert ([p[0]] + rest)[1..] == rest;
      assert p == [p[0]] + p[1..];
    }
  }

  lemma {:induction false} SplitHasNoSlash(s: string)
    ensures forall i :: 0 <= i < |Split(s)| ==> '/' !in Split(s)[i]
  {
    if s != "" {
      SplitHasNoSlash(s[1..]);
    }
  }

  lemma {:induction false} KeptAreParts(parts: seq<string>)
    ensures forall i :: 0 <= i < |Kept(parts)| ==> Kept(parts)[i] in parts && Kept(parts)[i] !in {"", "."}
  {
    if parts != [] {
      KeptAreParts(parts[1..]);
    }
  }

  /** Parts that contain no ".." are safe names. */
  lemma PartsAreSafe(name: string)
    requires ".." !in Parts(name)
    ensures SafePath(Parts(name))
  {
    SplitHasNoSlash(name);
    KeptAreParts(Split(name));
  }

  // ---------------------------------------------------------------------------------------
  // Extraction
  // ---------------------------------------------------------------------------------------

  /** _safe_member_relative */
  function Relative(m: Member, root: string): (r: Result<Path>)
    ensures r.Ok? ==> SafePath(r.value)
  {
    if m.kind in {Symlink, Hardlink, Device, Fifo} then Err(UnsafeMember)
    else
      var parts := Parts(m.name);
      if (m.name != "" && m.name[0] == '/') || ".." in parts || parts == [] then Err(PathTraversal)
      else if parts[0] != root then Err(RootMismatch)
      else PartsAreSafe(m.name); Ok(parts[1..])
  }

  datatype Result<T> = Ok(value: T) | Err(error: Error)

  predicate IsDir(files: Files, p: Path) { p == [] || (p in files && files[p].DirEntry?) }

  /** Path.mkdir(parents=True, exist_ok=True): fails below or on a file. */
  function MkdirAll(files: Files, p: Path): Option<Files> {
    if p == [] then Some(files)
    else
      match MkdirAll(files, p[..|p| - 1])
      case None => None
      case Some(f) =>
        if p !in f then Some(f[p := DirEntry])
        else if f[p].DirEntry? then Some(f) else None
  }

  datatype Progress = Progress(count: nat, bytes: nat, files: Files)

  /** One member whose path below staging is p. */
  function Place(st: Progress, m: Member, p: Path): Result<Progress> {
    if p == [] then (if m.kind == Directory then Ok(st) else Err(RootInvalid))
    else if p in st.files then
      (if m.kind == Directory && st.files[p].DirEntry? then Ok(st) else Err(DuplicateMember))
    else if m.kind == Directory then
      (match MkdirAll(st.files, p) case None => Err(ArchiveInvalid) case Some(f) => Ok(st.(files := f)))
    else if m.kind != Regular then Err(UnsafeMember)
    else if st.bytes + m.size > MAX_EXTRACTED_BYTES then Err(TooLarge)
    else
      match MkdirAll(st.files, p[..|p| - 1])
      case None => Err(ArchiveInvalid)
      case Some(f) =>
        if |m.data| < m.size then Err(Truncated)
        else if |m.data| > m.size then Err(Oversized)
        else Ok(Progress(st.count, st.bytes + m.size, f[p := FileEntry(m.data)]))
  }

  function Accept(st: Progress, m: Member, root: string): Result<Progress> {
    if st.count + 1 > MAX_ARCHIVE_MEMBERS then Err(TooManyMembers)
    else
      match Relative(m, root)
      case Err(e) => Err(e)
      case Ok(p) => Place(st.(count := st.count + 1), m, p)
  }

  function Extracted(st: Progress, members: seq<Member>, root: string): Result<Progress>
    decreases |members|
  {
    if members == [] then Ok(st)
    else
      match Accept(st, members[0], root)
      case Err(e) => Err(e)
      case Ok(st1) => Extracted(st1, members[1..], root)
  }

  lemma {:induction false} ExtractedAppend(st: Progress, ms: seq<Member>, ns: seq<Member>, root: string)
    ensures Extracted(st, ms + ns, root) ==
      match Extracted(st, ms, root) case Err(e) => Err(e) case Ok(st1) => Extracted(st1, ns, root)
    decreases |ms|
  {
    if ms == [] {
      assert ms + ns == ns;
    } else {
      assert (ms + ns)[1..] == ms[1..] + ns;
      match Accept(st, ms[0], root)
      case Err(_) =>
      case Ok(st1) => ExtractedAppend(st1, ms[1..], ns, root);
    }
  }

  // ---------------------------------------------------------------------------------------
  // Any member list at all stays inside staging and inside the limits
  // ---------------------------------------------------------------------------------------

  /** Every path is made of safe names and hangs below directories up to the staging directory. */
  ghost predicate Contained(files: Files) {
    forall p {:trigger Hangs(files, p)} :: p in files ==> Hangs(files, p)
  }

  ghost predicate Hangs(files: Files, p: Path) {
    p != [] && SafePath(p) && IsDir(files, p[..|p| - 1])
  }

  function Size(e: Entry): nat { if e.FileEntry? then |e.data| else 0 }

  /** The bytes of all files. */
  ghost function Weight(files: Files): nat
    decreases files.Keys
  {
    if files == map[] then 0
    else var p :| p in files; Size(files[p]) + Weight(files - {p})
  }

  lemma {:induction false} WeightWithout(files: Files, p: Path)
    requires p in files
    ensures Weight(files) == Size(files[p]) + Weight(files - {p})
    decreases files.Keys
  {
    var q: Path :| q in files && Weight(files) == Size(files[q]) + Weight(files - {q});
    if q != p {
      WeightWithout(files - {q}, p);
      WeightWithout(files - {p}, q);
      assert files - {q} - {p} == files - {p} - {q};
    }
  }

  lemma WeightInsert(files: Files, p: Path, e: Entry)
    requires p !in files
    ensures Weight(files[p := e]) == Weight(files) + Size(e)
  {
    WeightWithout(files[p := e], p);
    assert files[p := e] - {p} == files;
  }

  lemma InsertKeepsContained(files: Files, p: Path, e: Entry)
    requires Contained(files) && p !in files && Hangs(files, p)
    ensures Contained(files[p := e]) && Weight(files[p := e]) == Weight(files) + Size(e)
  {
    WeightInsert(files, p, e);
    var files' := files[p := e];
    forall q | q in files' ensures Hangs(files', q) {
      assert Hangs(files, q);
    }
  }

  /** Missing ancestors become directories and nothing else happens. */
  lemma {:induction false} MkdirAllMeans(files: Files, p: Path)
    requires Contained(files) && SafePath(p)
    ensures MkdirAll(files, p).Some? ==>
      var f := MkdirAll(files, p).value;
      && Contained(f) && IsDir(f, p) && Weight(f) == Weight(files)
      && (forall q :: q in files ==> q in f && f[q] == files[q])
      && (forall q :: q in f && q !in files ==> q <= p && f[q].DirEntry?)
  {
    if p != [] {
      MkdirAllMeans(files, p[..|p| - 1]);
      var up := MkdirAll(files, p[..|p| - 1]);
      if up.Some? && p !in up.value {
        InsertKeepsContained(up.value, p, DirEntry);
      }
    }
  }

  ghost predicate Bounded(st: Progress) {
    && Contained(st.files)
    && st.count <= MAX_ARCHIVE_MEMBERS
    && Weight(st.files) == st.bytes <= MAX_EXTRACTED_BYTES
  }

  lemma PlaceKeepsBounds(st: Progress, m: Member, p: Path)
    requires Bounded(st) && SafePath(p)
    ensures Place(st, m, p).Ok? ==> Bounded(Place(st, m, p).value)
  {
    if p != [] && p !in st.files {
      MkdirAllMeans(st.files, p);
      MkdirAllMeans(st.files, p[..|p| - 1]);
      var up := MkdirAll(st.files, p[..|p| - 1]);
      if m.kind == Regular && up.Some? && |m.data| == m.size {
        InsertKeepsContained(up.value, p, FileEntry(m.data));
      }
    }
  }

  lemma AcceptKeepsBounds(st: Progress, m: Member, root: string)
    requires Bounded(st)
    ensures Accept(st, m, root).Ok? ==> Bounded(Accept(st, m, root).value)
  {
    var rel := Relative(m, root);
    if rel.Ok? && st.count + 1 <= MAX_ARCHIVE_MEMBERS {
      PlaceKeepsBounds(st.(count := st.count + 1), m, rel.value);
    }
  }

  /** Whatever the archive holds: each extracted path stays inside staging, the files hold exactly
      the counted bytes, and neither limit is passed. */
  lemma {:induction false} ExtractionIsBounded(st: Progress, members: seq<Member>, root: string)
    requires Bounded(st)
    ensures Extracted(st, members, root).Ok? ==> Bounded(Extracted(st, members, root).value)
    decreases |members|
  {
    if members != [] {
      AcceptKeepsBounds(st, members[0], root);
      match Accept(st, members[0], root)
      case Err(_) =>
      case Ok(st1) => ExtractionIsBounded(st1, members[1..], root);
    }
  }

  // ---------------------------------------------------------------------------------------
  // Archiving and extracting undo each other
  // ---------------------------------------------------------------------------------------

  predicate HasName(f: Forest, name: string) {
    f.Cons? && (f.name == name || HasName(f.rest, name))
  }

  predicate WellFormed(f: Forest) {
    f.Cons? ==>
      && SafeName(f.name) && !HasName(f.rest, f.name)
      && (f.tree.Dir? ==> WellFormed(f.tree.entries))
      && WellFormed(f.rest)
  }

  /** tar.add(recursive=True): a directory before its entries; `path` starts with the arcname. */
  function Members(f: Forest, path: Path): seq<Member>
    requires path != []
  {
    match f
    case Nil => []
    case Cons(name, File(data), rest) =>
      [Member(Join(path + [name]), Regular, |data|, data)] + Members(rest, path)
    case Cons(name, Dir(entries), rest) =>
      [Member(Join(path + [name]), Directory, 0, [])] + Members(entries, path + [name]) + Members(rest, path)
  }

  function Archive(database: string, f: Forest): seq<Member> {
    [Member(Join([database]), Directory, 0, [])] + Members(f, [database])
  }

  /** The path-to-content map of a filestore. */
  function Flatten(f: Forest, path: Path): Files {
    match f
    case Nil => map[]
    case Cons(name, File(data), rest) => map[path + [name] := FileEntry(data)] + Flatten(rest, path)
    case Cons(name, Dir(entries), rest) =>
      map[path + [name] := DirEntry] + Flatten(entries, path + [name]) + Flatten(rest, path)
  }

  function Count(f: Forest): nat {
    match f
    case Nil => 0
    case Cons(_, File(_), rest) => 1 + Count(rest)
    case Cons(_, Dir(entries), rest) => 1 + Count(entries) + Count(rest)
  }

  function Bytes(f: Forest): nat {
    match f
    case Nil => 0
    case Cons(_, File(data), rest) => |data| + Bytes(rest)
    case Cons(_, Dir(entries), rest) => Bytes(entries) + Bytes(rest)
  }

  /** The names of a forest are those of its entries. */
  lemma {:induction false} HasNameIff(f: Forest, path: Path, name: string)
    ensures HasName(f, name) <==> path + [name] in Flatten(f, path)
  {
    match f
    case Nil =>
    case Cons(first, tree, rest) =>
      HasNameIff(rest, path, name);
      if tree.Dir? { FlattenIsBelow(tree.entries, path + [first]); }
      assert path + [first] == path + [name] <==> first == name by {
        assert (path + [first])[|path|] == first && (path + [name])[|path|] == name;
      }
  }

  lemma {:induction false} FlattenIsBelow(f: Forest, path: Path)
    ensures forall q :: q in Flatten(f, path) ==> |q| > |path|
  {
    match f
    case Nil =>
    case Cons(name, tree, rest) =>
      FlattenIsBelow(rest, path);
      if tree.Dir? { FlattenIsBelow(tree.entries, path + [name]); }
  }

  /** Nothing in `files` lies at or below an entry of f placed under `path`. */
  ghost predicate Vacant(files: Files, f: Forest, path: Path) {
    forall q, name :: q in files && HasName(f, name) ==> !(path + [name] <= q)
  }

  lemma {:induction false} FlattenBelow(f: Forest, path: Path)
    ensures forall q :: q in Flatten(f, path) ==> exists name :: HasName(f, name) && path + [name] <= q
  {
    match f
    case Nil =>
    case Cons(name, tree, rest) =>
      FlattenBelow(rest, path);
      assert HasName(f, name);
      if tree.Dir? {
        FlattenBelow(tree.entries, path + [name]);
      }
      forall q | q in Flatten(f, path) ensures exists n :: HasName(f, n) && path + [n] <= q {
        if q in Flatten(rest, path) {
          var n :| HasName(rest, n) && path + [n] <= q;
          assert HasName(f, n);
        } else if q != path + [name] {
          assert tree.Dir? && q in Flatten(tree.entries, path + [name]);
          var n :| HasName(tree.entries, n) && path + [name] + [n] <= q;
          assert path + [name] <= path + [name] + [n];
        }
      }
  }

  lemma RelativeOfMember(root: string, path: Path, m: Member)
    requires SafeName(root) && SafePath(path) && m.name == Join([root] + path) && m.kind in {Regular, Directory}
    ensures Relative(m, root) == Ok(path)
  {
    var full := [root] + path;
    PartsOfJoin(full);
    assert ".." !in full;
    assert full[1..] == path;
    assert m.name[0] == root[0];
  }

  lemma {:induction false} MkdirAllOfDir(files: Files, p: Path)
    requires Contained(files) && IsDir(files, p)
    ensures MkdirAll(files, p) == Some(files)
  {
    if p != [] {
      assert Hangs(files, p);
      MkdirAllOfDir(files, p[..|p| - 1]);
    }
  }

  /** Extracting ms adds n members, b bytes and the given entries, and fails exactly when that
      passes a limit. */
  ghost predicate Adds(st: Progress, ms: seq<Member>, root: string, n: nat, b: nat, added: Files) {
    var r := Extracted(st, ms, root);
    if st.count + n <= MAX_ARCHIVE_MEMBERS && st.bytes + b <= MAX_EXTRACTED_BYTES
    then r == Ok(Progress(st.count + n, st.bytes + b, st.files + added))
    else r.Err?
  }

  function Plus(st: Progress, n: nat, b: nat, added: Files): Progress {
    Progress(st.count + n, st.bytes + b, st.files + added)
  }

  lemma AddsBoth(st: Progress, ms: seq<Member>, ns: seq<Member>, root: string,
                 n: nat, b: nat, added: Files, n': nat, b': nat, added': Files)
    requires Adds(st, ms, root, n, b, added)
    requires st.count + n <= MAX_ARCHIVE_MEMBERS && st.bytes + b <= MAX_EXTRACTED_BYTES ==>
               Adds(Plus(st, n, b, added), ns, root, n', b', added')
    ensures Adds(st, ms + ns, root, n + n', b + b', added + added')
  {
    ExtractedAppend(st, ms, ns, root);
    assert st.files + added + added' == st.files + (added + added');
  }

  lemma AddsNothing(st: Progress, root: string)
    requires Bounded(st)
    ensures Adds(st, [], root, 0, 0, map[])
  {
    assert st.files + map[] == st.files;
  }

  lemma AddsOne(st: Progress, m: Member, root: string, path: Path, name: string)
    requires Bounded(st) && SafeName(root) && SafePath(path) && SafeName(name) && IsDir(st.files, path)
    requires path + [name] !in st.files
    requires m.name == Join([root] + path + [name]) && m.kind in {Regular, Directory} && |m.data| == m.size
    requires m.kind == Directory ==> m.data == []
    ensures Adds(st, [m], root, 1, m.size,
                 map[path + [name] := if m.kind == Directory then DirEntry else FileEntry(m.data)])
  {
    AcceptFresh(st, m, root, path, name);
    var e := if m.kind == Directory then DirEntry else FileEntry(m.data);
    assert st.files[path + [name] := e] == st.files + map[path + [name] := e];
    if st.count + 1 <= MAX_ARCHIVE_MEMBERS && st.bytes + m.size <= MAX_EXTRACTED_BYTES {
      assert Extracted(Accept(st, m, root).value, [], root) == Accept(st, m, root);
    }
  }

  lemma AddsKeepsBounds(st: Progress, ms: seq<Member>, root: string, n: nat, b: nat, added: Files)
    requires Bounded(st) && Adds(st, ms, root, n, b, added)
    requires st.count + n <= MAX_ARCHIVE_MEMBERS && st.bytes + b <= MAX_EXTRACTED_BYTES
    ensures Bounded(Plus(st, n, b, added))
  {
    ExtractionIsBounded(st, ms, root);
  }

  /** Extracting the members of f under `path` adds exactly Flatten(f, path), and succeeds exactly
      when both limits still hold afterwards. */
  lemma {:induction false} ExtractMembers(st: Progress, f: Forest, path: Path, root: string)
    requires Bounded(st) && WellFormed(f) && SafeName(root) && SafePath(path)
    requires IsDir(st.files, path) && Vacant(st.files, f, path)
    ensures Adds(st, Members(f, [root] + path), root, Count(f), Bytes(f), Flatten(f, path))
    decreases f
  {
    hide Adds, Extracted;
    if f == Nil {
      AddsNothing(st, root);
    } else {
      ExtractEntry(st, f, path, root);
      var ms, n, b, added := EntryMembers(f, [root] + path), EntryCount(f), EntryBytes(f), EntryFiles(f, path);
      if st.count + n <= MAX_ARCHIVE_MEMBERS && st.bytes + b <= MAX_EXTRACTED_BYTES {
        AddsKeepsBounds(st, ms, root, n, b, added);
        EntryBelow(f, path);
        VacantRest(st.files, added, f, path);
        ExtractMembers(Plus(st, n, b, added), f.rest, path, root);
      }
      AddsBoth(st, ms, Members(f.rest, [root] + path), root, n, b, added,
               Count(f.rest), Bytes(f.rest), Flatten(f.rest, path));
    }
  }

  /** The share of the first entry in Members, Count, Bytes and Flatten. */
  function EntryMembers(f: Forest, path: Path): seq<Member>
    requires f.Cons? && path != []
    ensures Members(f, path) == EntryMembers(f, path) + Members(f.rest, path)
  {
    match f.tree
    case File(data) => [Member(Join(path + [f.name]), Regular, |data|, data)]
    case Dir(entries) => [Member(Join(path + [f.name]), Directory, 0, [])] + Members(entries, path + [f.name])
  }

  function EntryCount(f: Forest): nat
    requires f.Cons?
    ensures Count(f) == EntryCount(f) + Count(f.rest)
  {
    if f.tree.Dir? then 1 + Count(f.tree.entries) else 1
  }

  function EntryBytes(f: Forest): nat
    requires f.Cons?
    ensures Bytes(f) == EntryBytes(f) + Bytes(f.rest)
  {
    match f.tree case File(data) => |data| case Dir(entries) => Bytes(entries)
  }

  function EntryFiles(f: Forest, path: Path): Files
    requires f.Cons?
    ensures Flatten(f, path) == EntryFiles(f, path) + Flatten(f.rest, path)
  {
    var p := path + [f.name];
    match f.tree
    case File(data) => map[p := FileEntry(data)]
    case Dir(entries) => map[p := DirEntry] + Flatten(entries, p)
  }

  lemma EntryBelow(f: Forest, path: Path)
    requires f.Cons?
    ensures forall q :: q in EntryFiles(f, path) ==> path + [f.name] <= q
  {
    var p := path + [f.name];
    if f.tree.Dir? {
      FlattenBelow(f.tree.entries, p);
      forall q | q in Flatten(f.tree.entries, p) ensures p <= q {
        var n :| HasName(f.tree.entries, n) && p + [n] <= q;
        assert p <= p + [n];
      }
    }
  }

  lemma FileAdds(st: Progress, f: Forest, path: Path, root: string)
    requires Bounded(st) && WellFormed(f) && SafeName(root) && SafePath(path) && f.Cons? && f.tree.File?
    requires IsDir(st.files, path) && Vacant(st.files, f, path)
    ensures Adds(st, EntryMembers(f, [root] + path), root, EntryCount(f), EntryBytes(f), EntryFiles(f, path))
  {
    assert HasName(f, f.name);
    var data := f.tree.data;
    AddsOne(st, Member(Join([root] + path + [f.name]), Regular, |data|, data), root, path, f.name);
  }

  /** A directory member on its own, leaving the directory empty and vacant for its entries. */
  lemma DirectoryAdds(st: Progress, f: Forest, path: Path, root: string)
    requires Bounded(st) && WellFormed(f) && SafeName(root) && SafePath(path) && f.Cons? && f.tree.Dir?
    requires IsDir(st.files, path) && Vacant(st.files, f, path)
    ensures var p, m := path + [f.name], Member(Join([root] + path + [f.name]), Directory, 0, []);
      && Adds(st, [m], root, 1, 0, map[p := DirEntry])
      && (st.count + 1 <= MAX_ARCHIVE_MEMBERS ==>
            var st1 := Plus(st, 1, 0, map[p := DirEntry]);
            Bounded(st1) && IsDir(st1.files, p) && Vacant(st1.files, f.tree.entries, p))
  {
    assert HasName(f, f.name);
    var m := Member(Join([root] + path + [f.name]), Directory, 0, []);
    AddsOne(st, m, root, path, f.name);
    if st.count + 1 <= MAX_ARCHIVE_MEMBERS {
      AddsKeepsBounds(st, [m], root, 1, 0, map[path + [f.name] := DirEntry]);
      VacantInside(st.files, f, path);
    }
  }

  lemma {:induction false} ExtractEntry(st: Progress, f: Forest, path: Path, root: string)
    requires Bounded(st) && WellFormed(f) && SafeName(root) && SafePath(path) && f.Cons?
    requires IsDir(st.files, path) && Vacant(st.files, f, path)
    ensures Adds(st, EntryMembers(f, [root] + path), root, EntryCount(f), EntryBytes(f), EntryFiles(f, path))
    decreases f, 0
  {
    hide Adds, Extracted;
    match f.tree
    case File(data) => FileAdds(st, f, path, root);
    case Dir(entries) =>
      var p := path + [f.name];
      var m := Member(Join([root] + path + [f.name]), Directory, 0, []);
      DirectoryAdds(st, f, path, root);
      assert [root] + path + [f.name] == [root] + p;
      if st.count + 1 <= MAX_ARCHIVE_MEMBERS {
        ExtractMembers(Plus(st, 1, 0, map[p := DirEntry]), entries, p, root);
      }
      AddsBoth(st, [m], Members(entries, [root] + p), root, 1, 0, map[p := DirEntry],
               Count(entries), Bytes(entries), Flatten(entries, p));
  }

  lemma PlaceFresh(st: Progress, m: Member, path: Path, name: string)
    requires Bounded(st) && IsDir(st.files, path) && path + [name] !in st.files
    requires m.kind in {Regular, Directory} && |m.data| == m.size && (m.kind == Directory ==> m.data == [])
    ensures Place(st, m, path + [name]) ==
      if st.bytes + m.size > MAX_EXTRACTED_BYTES then Err(TooLarge)
      else Ok(Progress(st.count, st.bytes + m.size,
                       st.files[path + [name] := if m.kind == Directory then DirEntry else FileEntry(m.data)]))
  {
    var p := path + [name];
    assert p[..|p| - 1] == path;
    MkdirAllOfDir(st.files, path);
  }

  /** A member of the archive whose parent is already there. */
  lemma AcceptFresh(st: Progress, m: Member, root: string, path: Path, name: string)
    requires Bounded(st) && SafeName(root) && SafePath(path) && SafeName(name) && IsDir(st.files, path)
    requires path + [name] !in st.files
    requires m.name == Join([root] + path + [name]) && m.kind in {Regular, Directory} && |m.data| == m.size
    requires m.kind == Directory ==> m.data == []
    ensures Accept(st, m, root) ==
      if st.count + 1 > MAX_ARCHIVE_MEMBERS then Err(TooManyMembers)
      else if st.bytes + m.size > MAX_EXTRACTED_BYTES then Err(TooLarge)
      else Ok(Progress(st.count + 1, st.bytes + m.size,
                       st.files[path + [name] := if m.kind == Directory then DirEntry else FileEntry(m.data)]))
  {
    assert [root] + path + [name] == [root] + (path + [name]);
    RelativeOfMember(root, path + [name], m);
    if st.count + 1 <= MAX_ARCHIVE_MEMBERS {
      PlaceFresh(st.(count := st.count + 1), m, path, name);
    }
  }

  lemma PrefixElements(path: Path, q: Path)
    ensures forall name :: path + [name] <= q ==> |q| > |path| && q[|path|] == name
  {
    forall name | path + [name] <= q ensures |q| > |path| && q[|path|] == name {
      assert (path + [name])[|path|] == name;
    }
  }

  /** The rest of a directory stays vacant when entries at or below the first name are added. */
  lemma VacantRest(files: Files, added: Files, f: Forest, path: Path)
    requires f.Cons? && WellFormed(f) && Vacant(files, f, path)
    requires forall q :: q in added ==> path + [f.name] <= q
    ensures Vacant(files + added, f.rest, path)
  {
    forall q, name | q in files + added && HasName(f.rest, name) ensures !(path + [name] <= q) {
      assert HasName(f, name);
      PrefixElements(path, q);
    }
  }

  lemma VacantInside(files: Files, f: Forest, path: Path)
    requires f.Cons? && f.tree.Dir? && Vacant(files, f, path)
    ensures Vacant(files + map[path + [f.name] := DirEntry], f.tree.entries, path + [f.name])
  {
    var p := path + [f.name];
    assert HasName(f, f.name);
    forall q, name | q in files + map[p := DirEntry] && HasName(f.tree.entries, name) ensures !(p + [name] <= q) {
      assert p <= p + [name];
    }
  }

  /** Archiving a filestore and extracting it into empty staging rebuilds it; within the limits it
      always succeeds and beyond them it always fails. */
  lemma ArchiveRoundTrip(database: string, f: Forest)
    requires SafeName(database) && WellFormed(f)
    ensures var r := Extracted(Progress(0, 0, map[]), Archive(database, f), database);
      && (r.Ok? <==> 1 + Count(f) <= MAX_ARCHIVE_MEMBERS && Bytes(f) <= MAX_EXTRACTED_BYTES)
      && (r.Ok? ==> r.value.files == Flatten(f, []))
  {
    var m := Member(Join([database]), Directory, 0, []);
    var st0 := Progress(0, 0, map[]);
    assert [database] + [] == [database];
    RelativeOfMember(database, [], m);
    assert Archive(database, f)[1..] == Members(f, [database] + []);
    assert Accept(st0, m, database) == Ok(Progress(1, 0, map[]));
    ExtractMembers(Progress(1, 0, map[]), f, [], database);
    assert map[] + Flatten(f, []) == Flatten(f, []);
  }

  // ---------------------------------------------------------------------------------------
  // The extraction as the restore engine performs it
  // ---------------------------------------------------------------------------------------

  /** How an extraction ends: done, a rejected archive, a failing system call the engine turns into
      `restore_filestore_archive_invalid`, or an exception it does not catch. */
  datatype Extraction = Complete | Rejected(error: Error) | Failing | Escaped

  /** What an extraction leaves on disk however it ends. */
  ghost predicate Confined(files: Files) { Contained(files) && Weight(files) <= MAX_EXTRACTED_BYTES }

  predicate WholeChunks(n: nat) { n % CHUNK == 0 }

  lemma WholeChunksIff(n: nat)
    ensures WholeChunks(n) <==> n % 1_048_576 == 0
  {
  }

  lemma NextChunk(n: nat)
    requires WholeChunks(n)
    ensures WholeChunks(n + CHUNK)
  {
  }

  /** The member's parents and the first n bytes of its content, copied in whole chunks. */
  predicate HalfWritten(before: Files, bytes: nat, m: Member, p: Path, n: nat, files: Files) {
    && m.kind == Regular && p != [] && p !in before && bytes + m.size <= MAX_EXTRACTED_BYTES
    && n < m.size && n <= |m.data| && (WholeChunks(n) || n == |m.data|)
    && var f := MkdirAll(before, p[..|p| - 1]);
    f.Some? && files == f.value[p := FileEntry(m.data[..n])]
  }

  /** The extraction stopped while reading the header of member k, the end of the archive included, or
      n bytes into the member. */
  predicate StoppedAt(members: seq<Member>, root: string, k: nat, n: nat, files: Files) {
    && k <= |members|
    && var st := Extracted(Progress(0, 0, map[]), members[..k], root);
    && st.Ok?
    && (files == st.value.files
        || (k < |members| && st.value.count < MAX_ARCHIVE_MEMBERS && Relative(members[k], root).Ok?
            && HalfWritten(st.value.files, st.value.bytes, members[k], Relative(members[k], root).value, n, files)))
  }

  /** What an exception that the extraction does not catch can leave in an empty staging folder. */
  ghost predicate Interrupted(members: seq<Member>, root: string, files: Files) {
    exists k, n :: StoppedAt(members, root, k, n, files)
  }

  lemma PrefixStep(st: Progress, members: seq<Member>, k: nat, root: string)
    requires k < |members|
    ensures Extracted(st, members[..k + 1], root) ==
      match Extracted(st, members[..k], root) case Err(e) => Err(e) case Ok(st1) => Accept(st1, members[k], root)
  {
    assert members[..k + 1] == members[..k] + [members[k]];
    ExtractedAppend(st, members[..k], [members[k]], root);
    assert [members[k]][1..] == [];
    hide Accept;
  }

  lemma ExtractedStep(st: Progress, members: seq<Member>, k: nat, root: string)
    requires k < |members|
    ensures Extracted(st, members[k..], root) ==
      match Accept(st, members[k], root) case Err(e) => Err(e) case Ok(st1) => Extracted(st1, members[k + 1..], root)
  {
    assert members[k..][1..] == members[k + 1..];
  }

  /** The staging directory of one restore. */
  class Staging {
    var files: Files
    /** Some system call failed. */
    ghost var faulty: bool

    constructor ()
      ensures files == map[] && !faulty
    {
      files := map[];
      faulty := false;
    }

    /** Path.mkdir(parents=True, exist_ok=True); a failing call may leave the first ancestors behind. */
    method Mkdir(p: Path) returns (failed: bool)
      requires Contained(files) && SafePath(p)
      modifies this
      ensures Contained(files) && Weight(files) == Weight(old(files))
      ensures !failed ==> MkdirAll(old(files), p) == Some(files) && faulty == old(faulty)
      ensures failed ==> faulty || MkdirAll(old(files), p).None?
    {
      failed := *;
      faulty := faulty || failed;
      var depth :| 0 <= depth <= |p| && (!failed ==> depth == |p|);
      MkdirAllMeans(files, p[..depth]);
      assert p[..|p|] == p;
      match MkdirAll(files, p[..depth])
      case None => failed := true;
      case Some(f) => files := f;
    }

    /** Copies m.size bytes in chunks into the fresh file p. */
    method WriteFile(m: Member, p: Path) returns (r: Extraction)
      requires Contained(files) && p !in files && Hangs(files, p) && Weight(files) + m.size <= MAX_EXTRACTED_BYTES
      modifies this
      ensures Confined(files)
      ensures r.Complete? ==> |m.data| == m.size && files == old(files)[p := FileEntry(m.data)]
      ensures r.Rejected? ==> r.error == if |m.data| < m.size then Truncated else Oversized
      ensures r.Rejected? ==> |m.data| != m.size
      ensures r.Failing? || r.Escaped? ==> faulty
      ensures r.Escaped? ==> exists n: nat ::
        && n < m.size && n <= |m.data| && (WholeChunks(n) || n == |m.data|)
        && files == old(files)[p := FileEntry(m.data[..n])]
    {
      ghost var before := files;
      assert WholeChunks(0);
      hide WholeChunks;
      var openFails := *;
      if openFails { faulty := true; return Failing; }
      var written: seq<Byte> := [];
      var remaining := m.size;
      InsertKeepsContained(before, p, FileEntry(written));
      files := files[p := FileEntry(written)];
      while remaining > 0
        invariant 0 <= remaining <= m.size && |written| == m.size - remaining
        invariant written <= m.data && (WholeChunks(|written|) || written == m.data || remaining == 0)
        invariant files == before[p := FileEntry(written)] && Confined(files)
      {
        var readFails, escapes := *, *;
        if escapes {
          faulty := true;
          assert written == m.data[..|written|];
          return Escaped;
        }
        if readFails { faulty := true; return Failing; }
        var limit := if remaining < CHUNK then remaining else CHUNK;
        var chunk := m.data[|written|..];
        if |chunk| > limit { chunk := chunk[..limit]; }
        if chunk == [] { return Rejected(Truncated); }
        if WholeChunks(|written|) { NextChunk(|written|); }
        written := written + chunk;
        InsertKeepsContained(before, p, FileEntry(written));
        files := files[p := FileEntry(written)];
        remaining := remaining - |chunk|;
      }
      if |m.data| > |written| { return Rejected(Oversized); }
      assert written == m.data;
      return Complete;
    }

    /** One member that is neither the root nor already there. */
    method PlaceMember(m: Member, p: Path, ghost count: nat, extracted: nat) returns (r: Extraction, extracted': nat)
      requires Contained(files) && SafePath(p) && p != [] && p !in files
      requires Weight(files) == extracted <= MAX_EXTRACTED_BYTES
      modifies this
      ensures Confined(files)
      ensures r.Complete? ==>
        Place(Progress(count, extracted, old(files)), m, p) == Ok(Progress(count, extracted', files))
      ensures r.Rejected? ==> Place(Progress(count, extracted, old(files)), m, p) == Err(r.error)
      ensures r.Failing? ==> faulty || Place(Progress(count, extracted, old(files)), m, p) == Err(ArchiveInvalid)
      ensures r.Escaped? ==> faulty && exists n: nat :: HalfWritten(old(files), extracted, m, p, n, files)
    {
      extracted' := extracted;
      if m.kind == Directory {
        var failed := Mkdir(p);
        return if failed then Failing else Complete, extracted';
      }
      if m.kind != Regular { return Rejected(UnsafeMember), extracted'; }
      extracted' := extracted + m.size;
      if extracted' > MAX_EXTRACTED_BYTES { return Rejected(TooLarge), extracted'; }
      MkdirAllMeans(files, p[..|p| - 1]);
      var failed := Mkdir(p[..|p| - 1]);
      if failed { return Failing, extracted'; }
      ghost var parents := files;
      r := WriteFile(m, p);
      if r.Escaped? {
        ghost var n: nat :| n < m.size && n <= |m.data| && (WholeChunks(n) || n == |m.data|)
                            && files == parents[p := FileEntry(m.data[..n])];
        assert HalfWritten(old(files), extracted, m, p, n, files);
      }
    }

    /** _extract_filestore: a completed extraction is the fold over the members, a rejection is the
        fold's error, and however it ends nothing is written outside staging or beyond the limit. */
    method Extract(members: seq<Member>, root: string) returns (r: Extraction)
      requires files == map[]
      modifies this
      ensures Confined(files)
      ensures r.Complete? ==>
        var x := Extracted(Progress(0, 0, map[]), members, root); x.Ok? && x.value.files == files
      ensures r.Rejected? ==> Extracted(Progress(0, 0, map[]), members, root) == Err(r.error)
      ensures r.Failing? ==> faulty || Extracted(Progress(0, 0, map[]), members, root) == Err(ArchiveInvalid)
      ensures r.Escaped? ==> faulty && Interrupted(members, root, files)
    {
      var count, extracted := 0, 0;
      ghost var start := Progress(0, 0, map[]);
      assert members[0..] == members;
      for k := 0 to |members|
        invariant count == k && Bounded(Progress(count, extracted, files))
        invariant Extracted(start, members, root) == Extracted(Progress(count, extracted, files), members[k..], root)
        invariant Extracted(start, members[..k], root) == Ok(Progress(count, extracted, files))
      {
        ghost var st := Progress(count, extracted, files);
        var m := members[k];
        ExtractedStep(st, members, k, root);
        PrefixStep(start, members, k, root);
        AcceptKeepsBounds(st, m, root);
        var headerFails, escapes := *, *;
        if escapes {
          faulty := true;
          assert StoppedAt(members, root, k, 0, files);
          return Escaped;
        }
        if headerFails { faulty := true; return Failing; }
        count := count + 1;
        if count > MAX_ARCHIVE_MEMBERS { return Rejected(TooManyMembers); }
        var relative := Relative(m, root);
        if relative.Err? { return Rejected(relative.error); }
        var p := relative.value;
        if p == [] {
          if m.kind != Directory { return Rejected(RootInvalid); }
          continue;
        }
        if p in files {
          if m.kind == Directory && files[p].DirEntry? { continue; }
          return Rejected(DuplicateMember);
        }
        r, extracted := PlaceMember(m, p, count, extracted);
        if r.Escaped? {
          ghost var n :| HalfWritten(st.files, st.bytes, m, p, n, files);
          assert StoppedAt(members, root, k, n, files);
        }
        if !r.Complete? { return; }
      }
      // the header after the last member
      var endFails, escapes := *, *;
      assert members[..|members|] == members;
      if escapes {
        faulty := true;
        assert StoppedAt(members, root, |members|, 0, files);
        return Escaped;
      }
      if endFails { faulty := true; return Failing; }
      return Complete;
    }
  }

  // ---------------------------------------------------------------------------------------
  // Which members are accepted, and what they leave
  // ---------------------------------------------------------------------------------------

  /** The parts of a member name: what lies between slashes, except nothing and ".". */
  lemma PartsMeans(a: string, b: string)
    requires '/' !in a
    ensures Parts(a + "/" + b) == (if a == "" || a == "." then [] else [a]) + Parts(b)
    ensures Parts(a) == if a == "" || a == "." then [] else [a]
  {
    SplitFirst(a, b);
    SplitWhole(a);
    assert ([a] + Split(b))[1..] == Split(b) && [a][1..] == [] && Kept([]) == [];
  }

  /** Path p can become a directory exactly when nothing on its way is a file; only missing directories appear. */
  lemma {:induction false} MkdirAllIff(files: Files, p: Path)
    ensures MkdirAll(files, p).Some? <==>
      forall k :: 0 < k <= |p| && p[..k] in files ==> files[p[..k]].DirEntry?
    ensures MkdirAll(files, p).Some? ==>
      forall q :: (q in MkdirAll(files, p).value <==> q in files || (q != [] && q <= p))
        && (q in files ==> MkdirAll(files, p).value[q] == files[q])
        && (q !in files && q != [] && q <= p ==> MkdirAll(files, p).value[q].DirEntry?)
  {
    if p != [] {
      var up := p[..|p| - 1];
      MkdirAllIff(files, up);
      assert p[..|p|] == p;
      forall k | 0 < k <= |up| ensures up[..k] == p[..k] {
      }
      if MkdirAll(files, p).Some? {
        assert !(p <= up);
        var made := MkdirAll(files, p).value;
        forall q
          ensures q in made <==> q in files || (q != [] && q <= p)
          ensures q in files ==> made[q] == files[q]
          ensures q !in files && q != [] && q <= p ==> made[q].DirEntry?
        {
          Shorter(q, p);
        }
      }
    }
  }

  lemma Shorter(q: Path, p: Path)
    requires p != []
    ensures q <= p <==> q <= p[..|p| - 1] || q == p
  {
    if q <= p && q != p { assert q == p[..|q|] == p[..|p| - 1][..|q|]; }
    if q <= p[..|p| - 1] { assert q == p[..|p| - 1][..|q|] == p[..|q|]; }
  }

  /** Nothing on the way to a path below staging is a file. */
  predicate Clear(files: Files, p: Path) { forall k :: 0 < k <= |p| && p[..k] in files ==> files[p[..k]].DirEntry? }

  /** A member is accepted when there are fewer than a million before it, it is a regular file or a directory, its
      name is relative, has no "..", and begins with the source database; a directory when no file is in its way;
      a file when its path is new, no file is in its way, its content is as long as its header says, and at
      most 50 GiB are extracted. */
  lemma AcceptIff(st: Progress, m: Member, root: string)
    requires Contained(st.files)
    ensures Accept(st, m, root).Ok? <==>
      && st.count < 1_000_000 && m.kind in {Regular, Directory}
      && !(m.name != "" && m.name[0] == '/') && ".." !in Parts(m.name)
      && Parts(m.name) != [] && Parts(m.name)[0] == root
      && var p := Parts(m.name)[1..];
      if m.kind == Directory then Clear(st.files, p)
      else p != [] && p !in st.files && Clear(st.files, p[..|p| - 1])
           && |m.data| == m.size && st.bytes + m.size <= 53_687_091_200
  {
    if Parts(m.name) != [] {
      var p := Parts(m.name)[1..];
      MkdirAllIff(st.files, p);
      if p != [] {
        MkdirAllIff(st.files, p[..|p| - 1]);
        assert p[..|p|] == p;
        if p in st.files && st.files[p].DirEntry? {
          forall k | 0 < k <= |p| ensures p[..k] in st.files && st.files[p[..k]].DirEntry? {
            AncestorsExist(st.files, p, p[..k]);
          }
        }
      }
    }
  }

  /** And the error of a rejected member says what is wrong with it. */
  lemma RejectMeans(st: Progress, m: Member, root: string)
    requires Contained(st.files) && Accept(st, m, root).Err?
    ensures match Accept(st, m, root).error
      case TooManyMembers => st.count >= 1_000_000
      case UnsafeMember => m.kind !in {Regular, Directory}
      case PathTraversal => (m.name != "" && m.name[0] == '/') || ".." in Parts(m.name) || Parts(m.name) == []
      case RootMismatch => Parts(m.name) != [] && Parts(m.name)[0] != root
      case RootInvalid => Parts(m.name) == [root] && m.kind != Directory
      case DuplicateMember =>
        && Parts(m.name) != [] && Parts(m.name)[1..] in st.files
        && !(m.kind == Directory && st.files[Parts(m.name)[1..]].DirEntry?)
      case TooLarge => m.kind == Regular && st.bytes + m.size > 53_687_091_200
      case Truncated => m.kind == Regular && |m.data| < m.size
      case Oversized => m.kind == Regular && |m.data| > m.size
      case ArchiveInvalid => Parts(m.name) != [] && !Clear(st.files, Parts(m.name)[1..])
  {
    if Parts(m.name) != [] {
      var p := Parts(m.name)[1..];
      MkdirAllIff(st.files, p);
      if p != [] {
        MkdirAllIff(st.files, p[..|p| - 1]);
        forall k | 0 < k <= |p| - 1 ensures p[..|p| - 1][..k] == p[..k] {
        }
      }
    }
  }

  /** An accepted member adds its path, a file with its content, and the directories on the way, and is counted. */
  lemma AcceptMeans(st: Progress, m: Member, root: string)
    requires Accept(st, m, root).Ok?
    ensures Parts(m.name) != []
    ensures var st', p := Accept(st, m, root).value, Parts(m.name)[1..];
      && st'.count == st.count + 1 && st'.bytes == st.bytes + (if m.kind == Regular then m.size else 0)
      && (m.kind == Regular ==> p in st'.files && st'.files[p] == FileEntry(m.data))
      && (forall q :: q in st.files ==> q in st'.files && st'.files[q] == st.files[q])
      && (forall q :: q in st'.files && q !in st.files ==>
            q != [] && q <= p && ((m.kind == Regular && q == p) || st'.files[q].DirEntry?))
      && (forall q :: q != [] && q <= p && Contained(st.files) ==> q in st'.files)
  {
    var p := Parts(m.name)[1..];
    MkdirAllIff(st.files, p);
    if p != [] {
      MkdirAllIff(st.files, p[..|p| - 1]);
      var made := Accept(st, m, root).value.files;
      forall q
        ensures q in made && q !in st.files ==>
          q != [] && q <= p && ((m.kind == Regular && q == p) || made[q].DirEntry?)
        ensures q != [] && q <= p && Contained(st.files) ==> q in made
      {
        Shorter(q, p);
        if p in st.files && q != [] && q <= p && Contained(st.files) { AncestorsExist(st.files, p, q); }
      }
    }
  }

  lemma {:induction false} AncestorsExist(files: Files, p: Path, q: Path)
    requires Contained(files) && p in files && q != [] && q <= p
    ensures q in files && (q != p ==> files[q].DirEntry?)
    decreases |p|
  {
    if q != p {
      assert Hangs(files, p);
      Shorter(q, p);
      AncestorsExist(files, p[..|p| - 1], q);
    }
  }

  /** A complete extraction: at most a million members, each accepted in its turn; every regular member's content
      is a file at its path, every file is a regular member's, and their sizes add up within the limit. */
  lemma {:induction false} ExtractionHolds(st: Progress, members: seq<Member>, root: string)
    requires Bounded(st) && Extracted(st, members, root).Ok?
    ensures var st' := Extracted(st, members, root).value;
      && st'.count == st.count + |members| && (members != [] ==> st'.count <= 1_000_000)
      && (forall q :: q in st.files ==> q in st'.files && st'.files[q] == st.files[q])
      && (forall i :: 0 <= i < |members| && members[i].kind == Regular ==>
            && Parts(members[i].name) != [] && Parts(members[i].name)[1..] in st'.files
            && st'.files[Parts(members[i].name)[1..]] == FileEntry(members[i].data))
      && (forall q :: q in st'.files && q !in st.files && st'.files[q].FileEntry? ==>
            exists i :: 0 <= i < |members| && members[i].kind == Regular && Parts(members[i].name) == [root] + q)
    decreases |members|
  {
    if members != [] {
      AcceptIff(st, members[0], root);
      AcceptMeans(st, members[0], root);
      AcceptKeepsBounds(st, members[0], root);
      var st1 := Accept(st, members[0], root).value;
      ExtractionHolds(st1, members[1..], root);
      hide Accept, Clear, Contained;
      var st' := Extracted(st, members, root).value;
      forall i | 0 <= i < |members| && members[i].kind == Regular
        ensures Parts(members[i].name) != [] && Parts(members[i].name)[1..] in st'.files
        ensures st'.files[Parts(members[i].name)[1..]] == FileEntry(members[i].data)
      {
        if i > 0 { assert members[i] == members[1..][i - 1]; }
      }
      forall q | q in st'.files && q !in st.files && st'.files[q].FileEntry?
        ensures exists i :: 0 <= i < |members| && members[i].kind == Regular && Parts(members[i].name) == [root] + q
      {
        if q in st1.files {
          assert Parts(members[0].name) == [root] + q;
        } else {
          var i :| 0 <= i < |members[1..]| && members[1..][i].kind == Regular
                   && Parts(members[1..][i].name) == [root] + q;
          assert members[i + 1] == members[1..][i];
        }
      }
    }
  }
}
