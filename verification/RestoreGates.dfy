/** The gates between a verified backup and its restore: list parsers, artifact checks and replays. */
module RestoreGates {
  import opened Common
  import opened Runs
  import opened BackupLeg
  import opened BackupArtifacts
  import Backup
  import Filestore
  import NodeState

  /** An artifact as it arrives in JSON or from a row: `kind`, `sha` and `version` are None for anything
      their patterns reject, `key` for any other string than an object key of this shape. */
  datatype Wire = Wire(kind: Option<Kind>, size: int, sha: Option<Sha>, key: Option<ObjectKey>, version: Option<nat>)

  /** The backup a list is checked against. */
  datatype Source = Source(tenant: Id, backup: Id, total: int, manifest: Sha)

  predicate DistinctKinds(items: seq<Wire>) {
    forall i, k :: 0 <= i < k < |items| ==> items[i].kind != items[k].kind
  }

  function KindsOf(items: seq<Wire>): set<Option<Kind>> { set i | 0 <= i < |items| :: items[i].kind }

  const KNOWN: set<Option<Kind>> := {Some(DatabaseDump), Some(FilestoreArchive), Some(Manifest)}

  function TotalOf(items: seq<Wire>): int {
    if items == [] then 0 else TotalOf(items[..|items| - 1]) + items[|items| - 1].size
  }

  /** Three known kinds, each once. */
  predicate OneOfEach(items: seq<Wire>) {
    |items| == 3 && DistinctKinds(items) && forall i :: 0 <= i < 3 ==> items[i].kind.Some?
  }

  lemma KnownKind(k: Kind)
    ensures Some(k) in KNOWN
  {
    match k case DatabaseDump => case FilestoreArchive => case Manifest =>
  }

  /** Three distinct known kinds are all there are. */
  lemma OneOfEachCovers(items: seq<Wire>)
    requires OneOfEach(items)
    ensures KindsOf(items) == KNOWN && |KNOWN| == 3
  {
    KnownKind(items[0].kind.value); KnownKind(items[1].kind.value); KnownKind(items[2].kind.value);
    var three := {items[0].kind, items[1].kind, items[2].kind};
    assert |three| == 3 && three <= KNOWN;
    assert |KNOWN - three| == |KNOWN| - |three|;
    assert items[0].kind in KindsOf(items) && items[1].kind in KindsOf(items) && items[2].kind in KindsOf(items);
    assert items[0].kind in KNOWN && items[1].kind in KNOWN && items[2].kind in KNOWN;
  }

  lemma KindsAppend(items: seq<Wire>, k: nat)
    requires k < |items|
    ensures KindsOf(items[..k + 1]) == KindsOf(items[..k]) + {items[k].kind}
    ensures items[..k + 1][..k] == items[..k]
    ensures DistinctKinds(items[..k + 1]) <==> DistinctKinds(items[..k]) && items[k].kind !in KindsOf(items[..k])
  {
    assert items[..k + 1] == items[..k] + [items[k]];
    if items[k].kind in KindsOf(items[..k]) {
      var i :| 0 <= i < k && items[..k][i].kind == items[k].kind;
      assert items[..k + 1][i].kind == items[..k + 1][k].kind;
    }
  }

  // ---------------------------------------------------------------------------------------
  // The loops
  // ---------------------------------------------------------------------------------------

  predicate Digested(w: Wire) { w.size >= 0 && w.sha.Some? }

  predicate Located(w: Wire) { w.key.Some? && w.version.Some? }

  /** What backupArtifactsComplete asks of a row. */
  predicate CompleteRow(w: Wire) { Located(w) && Digested(w) }

  predicate SafeSize(w: Wire) { 0 <= w.size <= MAX_SAFE_INTEGER }

  /** Every artifact is of a known kind, seen once, and passes the handler's own checks. */
  predicate Listed(items: seq<Wire>, passes: Wire -> bool) {
    OneOfEach(items) && forall i :: 0 <= i < |items| ==> passes(items[i])
  }

  /** The loop shared by parseArtifacts, parseVerifiedArtifacts, backupArtifactsComplete and the two
      Python parsers: `seen` grows until a kind is unknown or repeated or an item fails. */
  method CheckList(items: seq<Wire>, passes: Wire -> bool) returns (ok: bool)
    ensures ok <==> Listed(items, passes)
  {
    if |items| != 3 { return false; }
    var seen: set<Option<Kind>> := {};
    for k := 0 to |items|
      invariant seen == KindsOf(items[..k]) && DistinctKinds(items[..k])
      invariant forall i :: 0 <= i < k ==> items[i].kind.Some? && passes(items[i])
    {
      KindsAppend(items, k);
      var item := items[k];
      if item.kind.None? || item.kind in seen {
        if item.kind in seen { assert !DistinctKinds(items) by { assert !DistinctKinds(items[..k + 1]); } }
        return false;
      }
      if !passes(item) { return false; }
      seen := seen + {item.kind};
    }
    assert items[..|items|] == items;
    OneOfEachCovers(items);
    return seen == KNOWN;
  }

  /** What artifactsAreValid and the agent's parser ask of a claim's artifacts. */
  predicate GateOk(source: Source, items: seq<Wire>) {
    && Listed(items, (w: Wire) => w.kind.Some? && Digested(w) && Located(w) && SafeSize(w)
                                  && w.key == Some(ObjectKey(source.tenant, source.backup, w.kind.value)))
    && 0 <= source.total <= MAX_SAFE_INTEGER && TotalOf(items) == source.total
    && ManifestSha(items) == Some(source.manifest)
  }

  /** artifacts.find(kind === "manifest")?.sha256 */
  function ManifestSha(items: seq<Wire>): Option<Sha> {
    if items == [] then None
    else if items[0].kind == Some(Manifest) then items[0].sha
    else ManifestSha(items[1..])
  }

  /** artifactsAreValid of the restore claim: `seen` and `total` in one loop. */
  method ArtifactsAreValid(source: Source, items: seq<Wire>) returns (ok: bool)
    ensures ok <==> GateOk(source, items)
  {
    if |items| != 3 || source.total < 0 || source.total > MAX_SAFE_INTEGER { return false; }
    var seen: set<Option<Kind>> := {};
    var total := 0;
    for k := 0 to |items|
      invariant seen == KindsOf(items[..k]) && DistinctKinds(items[..k]) && total == TotalOf(items[..k])
      invariant forall i :: 0 <= i < k ==>
        && items[i].kind.Some? && Digested(items[i]) && Located(items[i]) && SafeSize(items[i])
        && items[i].key == Some(ObjectKey(source.tenant, source.backup, items[i].kind.value))
    {
      KindsAppend(items, k);
      var item := items[k];
      if item.kind.None? || item.kind in seen {
        if item.kind in seen { assert !DistinctKinds(items) by { assert !DistinctKinds(items[..k + 1]); } }
        return false;
      }
      if !Located(item) || !SafeSize(item) || !Digested(item) { return false; }
      if item.key != Some(ObjectKey(source.tenant, source.backup, item.kind.value)) { return false; }
      seen := seen + {item.kind};
      total := total + item.size;
    }
    assert items[..|items|] == items;
    OneOfEachCovers(items);
    ok := |seen| == 3 && total == source.total && ManifestSha(items) == Some(source.manifest);
  }

  /** _local_payload drops the object columns. */
  function Localised(items: seq<Wire>): seq<Wire> {
    seq(|items|, i requires 0 <= i < |items| => items[i].(key := None, version := None))
  }

  /** parse_restore_request of the privileged engine. */
  predicate LocalOk(source: Source, items: seq<Wire>) {
    && Listed(items, (w: Wire) => Digested(w)) && TotalOf(items) == source.total && source.total >= 0
    && ManifestSha(items) == Some(source.manifest)
  }

  lemma {:induction false} LocalisedKeeps(items: seq<Wire>)
    ensures TotalOf(Localised(items)) == TotalOf(items)
    decreases |items|
  {
    if items != [] {
      var init := items[..|items| - 1];
      LocalisedKeeps(init);
      assert Localised(items)[..|items| - 1] == Localised(init);
    }
  }

  lemma {:induction false} LocalisedManifest(items: seq<Wire>)
    ensures ManifestSha(Localised(items)) == ManifestSha(items)
    decreases |items|
  {
    if items != [] {
      LocalisedManifest(items[1..]);
      assert Localised(items)[1..] == Localised(items[1..]);
    }
  }

  /** What the claim handler lets out, the privileged parser accepts unchanged. */
  lemma LocalAcceptsGate(source: Source, items: seq<Wire>)
    requires GateOk(source, items)
    ensures LocalOk(source, Localised(items))
  {
    LocalisedKeeps(items);
    LocalisedManifest(items);
  }

  // -- the manifest -------------------------------------------------------------------------------

  datatype Manifested = Manifested(kind: Option<Kind>, fileKind: Option<Kind>, size: int, sha: Option<Sha>)

  function Expected(items: seq<Wire>, kind: Kind): Option<Wire> {
    if items == [] then None
    else if items[0].kind == Some(kind) then Some(items[0])
    else Expected(items[1..], kind)
  }

  predicate EntryOk(e: Manifested, items: seq<Wire>) {
    && e.kind in {Some(DatabaseDump), Some(FilestoreArchive)} && e.fileKind == e.kind
    && Expected(items, e.kind.value).Some?
    && e.size == Expected(items, e.kind.value).value.size && e.sha == Expected(items, e.kind.value).value.sha
  }

  /** Two entries, the dump and the archive in any order, each with its file name, size and hash. */
  predicate ManifestOk(entries: seq<Manifested>, items: seq<Wire>) {
    |entries| == 2 && entries[0].kind != entries[1].kind && EntryOk(entries[0], items) && EntryOk(entries[1], items)
  }

  /** The loop of both _validate_manifest functions. */
  method ValidateManifest(entries: seq<Manifested>, items: seq<Wire>) returns (ok: bool)
    ensures ok <==> ManifestOk(entries, items)
  {
    if |entries| != 2 { return false; }
    var seen: set<Option<Kind>> := {};
    for k := 0 to |entries|
      invariant seen == set i | 0 <= i < k :: entries[i].kind
      invariant forall i :: 0 <= i < k ==> EntryOk(entries[i], items)
      invariant k == 2 ==> entries[0].kind != entries[1].kind
    {
      var e := entries[k];
      if e.kind !in {Some(DatabaseDump), Some(FilestoreArchive)} || e.kind in seen { return false; }
      var expected := Expected(items, e.kind.value);
      if expected.None? || e.fileKind != e.kind || e.size != expected.value.size || e.sha != expected.value.sha {
        return false;
      }
      if k == 1 { assert entries[0].kind in seen; }
      seen := seen + {e.kind};
    }
    assert entries[0].kind in seen && entries[1].kind in seen;
    return true;
  }

  // ---------------------------------------------------------------------------------------
  // Every verified backup passes every gate
  // ---------------------------------------------------------------------------------------

  function AsWire(kind: Kind, a: Artifact): Wire {
    Wire(Some(kind), a.digest.size, Some(a.digest.sha),
         if a.stored.Some? then Some(a.stored.value.key) else None,
         if a.stored.Some? then Some(a.stored.value.version) else None)
  }

  /** SELECT ... ORDER BY artifact_kind ASC */
  function Selected(rows: map<Kind, Artifact>): seq<Wire>
    requires rows.Keys == ALL_KINDS
  {
    [AsWire(DatabaseDump, rows[DatabaseDump]), AsWire(FilestoreArchive, rows[FilestoreArchive]),
     AsWire(Manifest, rows[Manifest])]
  }

  lemma TotalOfThree(a: Wire, b: Wire, c: Wire)
    ensures TotalOf([a, b, c]) == a.size + b.size + c.size
  {
    assert [a, b, c][..2] == [a, b] && [a, b][..1] == [a] && [a][..0] == [];
    assert TotalOf([a, b]) == TotalOf([a]) + b.size && TotalOf([a]) == TotalOf([]) + a.size;
  }

  lemma ExpectedOfThree(items: seq<Wire>)
    requires |items| == 3
    ensures items[0].kind == Some(DatabaseDump) ==> Expected(items, DatabaseDump) == Some(items[0])
    ensures items[0].kind != Some(FilestoreArchive) && items[1].kind == Some(FilestoreArchive) ==>
      Expected(items, FilestoreArchive) == Some(items[1])
    ensures items[0].kind != Some(Manifest) && items[1].kind != Some(Manifest) && items[2].kind == Some(Manifest) ==>
      ManifestSha(items) == items[2].sha
  {
    assert items[1..][0] == items[1] && items[1..][1..][0] == items[2];
    assert Expected(items[1..], FilestoreArchive) ==
      if items[1].kind == Some(FilestoreArchive) then Some(items[1]) else Expected(items[1..][1..], FilestoreArchive);
    assert ManifestSha(items[1..]) ==
      if items[1].kind == Some(Manifest) then items[1].sha else ManifestSha(items[1..][1..]);
  }

  lemma ManifestOfThree(items: seq<Wire>)
    requires |items| == 3 && items[0].kind != items[1].kind && items[0].kind != items[2].kind
    requires items[1].kind != items[2].kind
    ensures TotalOf(items) == items[0].size + items[1].size + items[2].size
    ensures forall sha :: ManifestSha(items) == Some(sha) <==>
      exists i :: 0 <= i < 3 && items[i].kind == Some(Manifest) && items[i].sha == Some(sha)
  {
    TotalOfThree(items[0], items[1], items[2]);
    assert items == [items[0], items[1], items[2]];
    assert items[1..] == [items[1], items[2]] && items[2..] == [items[2]] && items[3..] == [];
    assert ManifestSha(items[2..]) == if items[2].kind == Some(Manifest) then items[2].sha else None;
    assert ManifestSha(items[1..]) ==
      if items[1].kind == Some(Manifest) then items[1].sha else ManifestSha(items[2..]) by {
      assert items[1..][1..] == items[2..];
    }
    forall sha | ManifestSha(items) == Some(sha)
      ensures exists i :: 0 <= i < 3 && items[i].kind == Some(Manifest) && items[i].sha == Some(sha)
    {
      var i := if items[0].kind == Some(Manifest) then 0 else if items[1].kind == Some(Manifest) then 1 else 2;
      assert items[i].kind == Some(Manifest) && items[i].sha == Some(sha);
    }
  }

  // -- the gates in the columns themselves ----------------------------------------------------------

  /** What the restore claim lets out, and nothing else: three artifacts of different kinds, each with hash,
      version, a safe size and the key of its own kind under this backup, adding up to the stored safe total,
      with the stored manifest hash.  A foreign key, another total or another manifest hash is refused. */
  lemma GateOkIff(source: Source, items: seq<Wire>)
    ensures GateOk(source, items) <==>
      && |items| == 3 && items[0].kind != items[1].kind && items[0].kind != items[2].kind
      && items[1].kind != items[2].kind
      && (forall i :: 0 <= i < 3 ==>
            var w := items[i];
            && w.kind.Some? && w.sha.Some? && w.version.Some? && 0 <= w.size <= 9_007_199_254_740_991
            && w.key == Some(ObjectKey(source.tenant, source.backup, w.kind.value)))
      && 0 <= source.total <= 9_007_199_254_740_991
      && items[0].size + items[1].size + items[2].size == source.total
      && exists i :: 0 <= i < 3 && items[i].kind == Some(Manifest) && items[i].sha == Some(source.manifest)
  {
    if |items| == 3 && DistinctKinds(items) { ManifestOfThree(items); }
  }

  /** And what the privileged parser accepts: the same without object columns. */
  lemma LocalOkIff(source: Source, items: seq<Wire>)
    ensures LocalOk(source, items) <==>
      && |items| == 3 && items[0].kind != items[1].kind && items[0].kind != items[2].kind
      && items[1].kind != items[2].kind
      && (forall i :: 0 <= i < 3 ==> items[i].kind.Some? && items[i].sha.Some? && items[i].size >= 0)
      && items[0].size + items[1].size + items[2].size == source.total
      && exists i :: 0 <= i < 3 && items[i].kind == Some(Manifest) && items[i].sha == Some(source.manifest)
  {
    if |items| == 3 && DistinctKinds(items) { ManifestOfThree(items); }
  }

  /** The backup a restore is requested of: the three artifacts, each with hash, size, key and version. */
  lemma CompleteIff(items: seq<Wire>)
    ensures Listed(items, (w: Wire) => CompleteRow(w)) <==>
      && |items| == 3 && items[0].kind != items[1].kind && items[0].kind != items[2].kind
      && items[1].kind != items[2].kind
      && forall i :: 0 <= i < 3 ==>
           && items[i].kind.Some? && items[i].sha.Some? && items[i].size >= 0
           && items[i].key.Some? && items[i].version.Some?
  {
  }

  lemma {:induction false} ExpectedIsFirst(items: seq<Wire>, kind: Kind)
    ensures match Expected(items, kind)
      case None => forall i :: 0 <= i < |items| ==> items[i].kind != Some(kind)
      case Some(w) => w in items && w.kind == Some(kind)
  {
    if items != [] && items[0].kind != Some(kind) {
      ExpectedIsFirst(items[1..], kind);
      assert forall i :: 1 <= i < |items| ==> items[i] == items[1..][i - 1];
    }
  }

  /** A manifest is accepted exactly when it has an entry for the dump and one for the archive, in any order, each
      under its own file name with the size and hash of the listed artifact. */
  lemma ManifestOkIff(entries: seq<Manifested>, items: seq<Wire>)
    requires OneOfEach(items)
    ensures ManifestOk(entries, items) <==>
      && |entries| == 2
      && ((entries[0].kind == Some(DatabaseDump) && entries[1].kind == Some(FilestoreArchive))
          || (entries[0].kind == Some(FilestoreArchive) && entries[1].kind == Some(DatabaseDump)))
      && forall i :: 0 <= i < 2 ==>
           && entries[i].fileKind == entries[i].kind
           && exists k :: 0 <= k < 3 && items[k].kind == entries[i].kind
                          && items[k].size == entries[i].size && items[k].sha == entries[i].sha
  {
    ExpectedIsFirst(items, DatabaseDump);
    ExpectedIsFirst(items, FilestoreArchive);
    hide Expected;
  }

  /** The manifest backup() writes next to its two other artifacts. */
  function Written(digests: map<Kind, Digest>): seq<Manifested>
    requires digests.Keys == ALL_KINDS
  {
    [Manifested(Some(DatabaseDump), Some(DatabaseDump), digests[DatabaseDump].size, Some(digests[DatabaseDump].sha)),
     Manifested(Some(FilestoreArchive), Some(FilestoreArchive), digests[FilestoreArchive].size,
                Some(digests[FilestoreArchive].sha))]
  }

  /** The backup as the restore claim's query joins it. */
  function SourceOf(t: Tables, j: Id): Source
    requires j in t.jobs && t.jobs[j].prep.Some?
  {
    Source(t.jobs[j].tenant, j, t.jobs[j].prep.value.0, t.jobs[j].prep.value.1)
  }

  /** A restorable backup passes the gate of the restore request and that of the restore claim, its
      claim payload is accepted by the agent and unchanged by the privileged engine, and the manifest
      of its artifacts passes both manifest validators. */
  predicate PassesEveryGate(source: Source, rows: map<Kind, Artifact>)
    requires rows.Keys == ALL_KINDS
  {
    var items := Selected(rows);
    && Listed(items, (w: Wire) => CompleteRow(w))
    && GateOk(source, items) && LocalOk(source, Localised(items))
    && ManifestOk(Written(Digests(rows)), items) && ManifestOk(Written(Digests(rows)), Localised(items))
  }

  lemma RestorableIsListed(t: Tables, j: Id)
    requires j in t.jobs && Restorable(t, j)
    ensures var items := Selected(Rows(t, j));
      Listed(items, (w: Wire) => CompleteRow(w)) && GateOk(SourceOf(t, j), items)
  {
    var items := Selected(Rows(t, j));
    TotalOfThree(items[0], items[1], items[2]);
    ExpectedOfThree(items);
  }

  lemma RestorablePassesEveryGate(t: Tables, j: Id)
    requires j in t.jobs && Restorable(t, j)
    ensures PassesEveryGate(SourceOf(t, j), Rows(t, j))
  {
    var items := Selected(Rows(t, j));
    RestorableIsListed(t, j);
    LocalAcceptsGate(SourceOf(t, j), items);
    ExpectedOfThree(items);
    ExpectedOfThree(Localised(items));
  }

  /** A verified backup passes every gate, in every run of handlers one at a time, and in every
      interleaved run in which the batches written for it agree. */
  lemma VerifiedPassesEveryGate(s: State, j: Id, d: map<Kind, Digest>)
    requires Leads(SerialTrans, EMPTY, s) || Leads(AgreedTrans(j, d), EMPTY, s)
    requires j in s.t.jobs && s.t.jobs[j].state == Verified
    ensures Rows(s.t, j).Keys == ALL_KINDS && s.t.jobs[j].prep.Some?
    ensures PassesEveryGate(SourceOf(s.t, j), Rows(s.t, j))
  {
    if Leads(SerialTrans, EMPTY, s) {
      SerialBackupsAreRestorable(s, j);
    } else {
      VerifiedIsRestorable(j, d, s);
    }
    hide Leads, AgreedTrans, SerialTrans, PassesEveryGate;
    RestorablePassesEveryGate(s.t, j);
  }

  // -- from the workspace of a backup to its restore -----------------------------------------------

  /** Size and hash of the three files of a workspace, by what they hold. */
  datatype Measure = Measure(
    dump: NodeState.Contents -> Digest, archive: seq<Filestore.Member> -> Digest,
      manifest: Backup.ManifestFile -> Digest)

  /** The digests a backup reports for its workspace. */
  function ReportOf(m: Measure, w: Backup.Workspace): (d: map<Kind, Digest>)
    requires w.dump.Some? && w.archive.Some? && w.manifest.Some?
    ensures d.Keys == ALL_KINDS
  {
    map[DatabaseDump := m.dump(w.dump.value), FilestoreArchive := m.archive(w.archive.value),
        Manifest := m.manifest(w.manifest.value)]
  }

  /** The artifact list inside the manifest file. */
  function EntriesOf(m: Measure, f: Backup.ManifestFile): seq<Manifested> {
    var dump, archive := m.dump(f.dump), m.archive(f.archive);
    [Manifested(Some(DatabaseDump), Some(DatabaseDump), dump.size, Some(dump.sha)),
     Manifested(Some(FilestoreArchive), Some(FilestoreArchive), archive.size, Some(archive.sha))]
  }

  /** The manifest in a complete workspace is the one that belongs to the report made from it. */
  lemma ManifestFitsReport(m: Measure, w: Backup.Workspace, req: Backup.Request, rows: map<Kind, Artifact>)
    requires Backup.Complete(w, req) && rows.Keys == ALL_KINDS && Digests(rows) == ReportOf(m, w)
    ensures EntriesOf(m, w.manifest.value) == Written(Digests(rows))
  {
  }

  /** From the node to the restore: when a backup prepared its workspace and the batches written for it carry
      that workspace's digests, then once it is verified the manifest in the workspace passes both manifest
      validators for the artifacts the claim hands out. */
  lemma WorkspaceManifestPasses(m: Measure, config: NodeState.Config, req: Backup.Request, node: NodeState.State,
                                ws: map<NodeState.Id, Backup.Workspace>, ws': map<NodeState.Id, Backup.Workspace>,
                                faults: set<NodeState.Fault>, s: State, j: Id)
    requires Backup.Effect(config, req, node, ws, NodeState.Prepared, ws', faults)
    requires Leads(AgreedTrans(j, ReportOf(m, ws'[req.operation])), EMPTY, s)
    requires j in s.t.jobs && s.t.jobs[j].state == Verified
    ensures Rows(s.t, j).Keys == ALL_KINDS
    ensures var items, entries := Selected(Rows(s.t, j)), EntriesOf(m, ws'[req.operation].manifest.value);
      ManifestOk(entries, items) && ManifestOk(entries, Localised(items))
  {
    var w := ws'[req.operation];
    VerifiedIsRestorable(j, ReportOf(m, w), s);
    VerifiedPassesEveryGate(s, j, ReportOf(m, w));
    ManifestFitsReport(m, w, req, Rows(s.t, j));
  }

  // ---------------------------------------------------------------------------------------
  // Replays of accepted reports
  // ---------------------------------------------------------------------------------------

  /** The order of the kinds' names. */
  function Order(w: Wire): nat {
    match w.kind
    case Some(DatabaseDump) => 0
    case Some(FilestoreArchive) => 1
    case Some(Manifest) => 2
    case None => 3
  }

  function Insert(w: Wire, items: seq<Wire>): seq<Wire> {
    if items == [] || Order(w) <= Order(items[0]) then [w] + items else [items[0]] + Insert(w, items[1..])
  }

  /** [...items].sort((a, b) => a.artifact_kind.localeCompare(b.artifact_kind)) */
  function SortByKind(items: seq<Wire>): seq<Wire> {
    if items == [] then [] else Insert(items[0], SortByKind(items[1..]))
  }

  predicate Ascending(items: seq<Wire>) { forall i, k :: 0 <= i < k < |items| ==> Order(items[i]) < Order(items[k]) }

  lemma {:induction false} InsertElements(w: Wire, items: seq<Wire>)
    ensures forall x :: x in Insert(w, items) <==> x == w || x in items
  {
    if items != [] && Order(w) > Order(items[0]) {
      InsertElements(w, items[1..]);
      assert items == [items[0]] + items[1..];
    }
  }

  lemma {:induction false} InsertAscends(w: Wire, items: seq<Wire>)
    requires Ascending(items) && forall x :: x in items ==> Order(x) != Order(w)
    ensures Ascending(Insert(w, items))
  {
    if items != [] && Order(w) > Order(items[0]) {
      InsertAscends(w, items[1..]);
      InsertElements(w, items[1..]);
      var rest := Insert(w, items[1..]);
      forall i | 0 <= i < |rest| ensures Order(items[0]) < Order(rest[i]) {
        assert rest[i] in rest;
      }
    }
  }

  lemma {:induction false} SortElements(items: seq<Wire>)
    ensures forall x :: x in SortByKind(items) <==> x in items
  {
    if items != [] {
      SortElements(items[1..]);
      InsertElements(items[0], SortByKind(items[1..]));
      assert items == [items[0]] + items[1..];
    }
  }

  lemma {:induction false} SortAscends(items: seq<Wire>)
    requires forall i, k :: 0 <= i < k < |items| ==> Order(items[i]) != Order(items[k])
    ensures Ascending(SortByKind(items))
  {
    if items != [] {
      SortAscends(items[1..]);
      SortElements(items[1..]);
      InsertAscends(items[0], SortByKind(items[1..]));
    }
  }

  /** An ascending list is determined by its elements. */
  lemma {:induction false} AscendingIsUnique(a: seq<Wire>, b: seq<Wire>)
    requires Ascending(a) && Ascending(b) && forall w :: w in a <==> w in b
    ensures a == b
  {
    if |b| > 0 { assert b[0] in a; }
    if a != [] {
      assert a[0] in b;
      assert b[0] in a;
      assert a[0] == b[0];
      assert forall w :: w in a[1..] <==> w in a && w != a[0];
      assert forall w :: w in b[1..] <==> w in b && w != b[0];
      AscendingIsUnique(a[1..], b[1..]);
    }
  }

  lemma DistinctOrders(items: seq<Wire>)
    requires DistinctKinds(items) && forall i :: 0 <= i < |items| ==> items[i].kind.Some?
    ensures forall i, k :: 0 <= i < k < |items| ==> Order(items[i]) != Order(items[k])
  {
  }

  lemma SortedElements(items: seq<Wire>)
    requires OneOfEach(items)
    ensures Ascending(SortByKind(items)) && forall w :: w in SortByKind(items) <==> w in items
  {
    SortElements(items);
    DistinctOrders(items);
    SortAscends(items);
  }

  /** The sorted comparison of the replay checks is equality as sets, whatever the two orders. */
  lemma ReplayComparesSets(stored: seq<Wire>, returned: seq<Wire>)
    requires OneOfEach(stored) && OneOfEach(returned)
    ensures SortByKind(stored) == SortByKind(returned) <==> forall w :: w in stored <==> w in returned
  {
    SortedElements(stored);
    SortedElements(returned);
    if forall w :: w in stored <==> w in returned {
      AscendingIsUnique(SortByKind(stored), SortByKind(returned));
    }
  }

  /** The list of a parsed `prepared` report, in any order. */
  predicate Denotes(items: seq<Wire>, digests: map<Kind, Digest>) {
    && OneOfEach(items) && digests.Keys == ALL_KINDS
    && forall i :: 0 <= i < |items| ==>
         && items[i].kind.value in digests
         && items[i] ==
            Wire(items[i].kind, digests[items[i].kind.value].size, Some(digests[items[i].kind.value].sha), None, None)
  }

  /** preparedReplayMatches */
  predicate PreparedReplay(t: Tables, j: Id, total: nat, manifest: Sha, items: seq<Wire>) {
    && j in t.jobs && t.jobs[j].state == Prepared && t.jobs[j].prep == Some((total, manifest))
    && Rows(t, j).Keys == ALL_KINDS
    && SortByKind(Localised(Selected(Rows(t, j)))) == SortByKind(items)
  }

  lemma DenotedKind(items: seq<Wire>, k: Kind)
    requires OneOfEach(items)
    ensures exists i :: 0 <= i < |items| && items[i].kind == Some(k)
  {
    OneOfEachCovers(items);
    KnownKind(k);
    assert Some(k) in KindsOf(items);
  }

  predicate SameDigests(rows: map<Kind, Artifact>, digests: map<Kind, Digest>) {
    && rows.Keys == ALL_KINDS && digests.Keys == ALL_KINDS
    && rows[DatabaseDump].digest == digests[DatabaseDump] && rows[FilestoreArchive].digest == digests[FilestoreArchive]
    && rows[Manifest].digest == digests[Manifest]
  }

  function WireOf(k: Kind, d: Digest): Wire { Wire(Some(k), d.size, Some(d.sha), None, None) }

  lemma DenotedElements(items: seq<Wire>, digests: map<Kind, Digest>, w: Wire)
    requires Denotes(items, digests)
    ensures w in items <==> exists k :: k in digests && w == WireOf(k, digests[k])
  {
    if w in items {
      assert w == WireOf(w.kind.value, digests[w.kind.value]);
    }
    if k :| k in digests && w == WireOf(k, digests[k]) {
      DenotedKind(items, k);
      var i :| 0 <= i < |items| && items[i].kind == Some(k);
      assert items[i] == w;
    }
  }

  lemma StoredElements(rows: map<Kind, Artifact>, w: Wire)
    requires rows.Keys == ALL_KINDS
    ensures w in Localised(Selected(rows)) <==> exists k :: k in rows && w == WireOf(k, rows[k].digest)
  {
    var stored := Localised(Selected(rows));
    assert stored ==
      [WireOf(DatabaseDump, rows[DatabaseDump].digest), WireOf(FilestoreArchive, rows[FilestoreArchive].digest),
                      WireOf(Manifest, rows[Manifest].digest)];
    if k :| k in rows && w == WireOf(k, rows[k].digest) {
      match k case DatabaseDump => case FilestoreArchive => case Manifest =>
    }
  }

  /** Without a lease a `prepared` report is accepted exactly when it equals the stored result, whatever
      the order of its artifacts. */
  lemma PreparedReplayIff(t: Tables, j: Id, p: Prep, items: seq<Wire>)
    requires j in t.jobs && Consistent(t, j) && Parsed(p) && Denotes(items, p.digests)
    ensures PreparedReplay(t, j, p.total, p.manifest, items) <==>
      t.jobs[j].state == Prepared && SameDigests(Rows(t, j), p.digests)
  {
    var rows := Rows(t, j);
    var stored := Localised(Selected(rows));
    assert OneOfEach(stored);
    ReplayComparesSets(stored, items);
    forall w
      ensures w in stored <==> exists k :: k in rows && w == WireOf(k, rows[k].digest)
      ensures w in items <==> exists k :: k in p.digests && w == WireOf(k, p.digests[k])
    {
      StoredElements(rows, w);
      DenotedElements(items, p.digests, w);
    }
    hide Denotes, OneOfEach, SortByKind, Localised, Selected;
    if forall w :: w in stored <==> w in items {
      forall k | k in ALL_KINDS ensures rows[k].digest == p.digests[k] {
        assert WireOf(k, rows[k].digest) in stored;
      }
    }
  }

  /** verifiedReplayMatches */
  predicate VerifiedReplay(t: Tables, node: Node, j: Id, items: seq<Wire>) {
    && j in t.jobs && t.jobs[j].node == node && t.jobs[j].state == Verified && Rows(t, j).Keys == ALL_KINDS
    && SortByKind(Selected(Rows(t, j))) == SortByKind(items)
  }

  /** The same for a `verified` report: the node, the object keys and the versions count too. */
  lemma VerifiedReplayIff(t: Tables, node: Node, j: Id, items: seq<Wire>)
    requires j in t.jobs && Rows(t, j).Keys == ALL_KINDS && OneOfEach(items)
    ensures VerifiedReplay(t, node, j, items) <==>
      && t.jobs[j].state == Verified && t.jobs[j].node == node
      && forall w :: w in Selected(Rows(t, j)) <==> w in items
  {
    ReplayComparesSets(Selected(Rows(t, j)), items);
  }

  /** However the handlers interleave: as long as the backup is prepared, the report of its digests is
      accepted again. */
  lemma PreparedReplays(s: State, j: Id, p: Prep, items: seq<Wire>)
    requires Leads(AgreedTrans(j, p.digests), EMPTY, s) && j in s.t.jobs && s.t.jobs[j].state == Prepared
    requires Parsed(p) && Denotes(items, p.digests)
    ensures PreparedReplay(s.t, j, p.total, p.manifest, items)
  {
    VerifiedIsRestorable(j, p.digests, s);
    assert Digests(Rows(s.t, j)) == p.digests;
    PreparedReplayIff(s.t, j, p, items);
  }
}
