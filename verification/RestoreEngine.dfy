/** RestoreEngine: a verified backup becomes the database and filestore of a new tenant. */
module Restore {
  import opened Common
  import opened NodeState
  import Filestore

  datatype Request = Request(operation: Id, sourceTenant: Id, tenant: Id, environment: Environment, template: Id,
                             provisioning: Id, sourceDatabase: Name, database: Name)

  /** The dump and the archive of a downloaded backup. */
  datatype Artifacts = Artifacts(dump: Contents, members: seq<Filestore.Member>)

  function Gate(config: Config, req: Request): Option<Error> {
    if !config.enabled || config.phase != TestOnly || req.environment != Test then Some(EnvironmentBlocked)
    else if req.template !in config.profiles then Some(ProfileMissing)
    else
      var profile := config.profiles[req.template];
      if req.database == profile.source then Some(SourceConflict)
      else if !(profile.prefix + "_restore_" <= req.database) then Some(PrefixMismatch)
      else if req.sourceDatabase == profile.source then Some(SourceConflict)
      else None
  }

  function SourceMarker(req: Request): Marker { Marker(req.sourceTenant, req.template, req.provisioning) }

  function TargetMarker(req: Request): Marker { Marker(req.tenant, req.template, req.operation) }

  function SlotOf(profile: Profile, req: Request): Slot { Tenant(profile.root, req.database) }

  function StagingOf(profile: Profile, req: Request): Slot { Slot.Staging(profile.root, req.operation) }

  function Unpacked(req: Request, artifacts: Artifacts): Filestore.Result<Filestore.Progress> {
    Filestore.Extracted(Filestore.Progress(0, 0, map[]), artifacts.members, req.sourceDatabase)
  }

  predicate HasAll(contents: Contents, modules: set<Module>) { modules <= contents.modules }

  /** What a validated restore leaves for its target, and what a replay accepts. */
  predicate InPlace(profile: Profile, req: Request, s: State) {
    && Owned(s.databases, req.database, profile.owner, TargetMarker(req))
    && OdooOf(s.databases, req.database) && HasAll(s.databases[req.database].contents, profile.allowed)
    && SlotOf(profile, req) in s.filestores && s.filestores[SlotOf(profile, req)].Folder?
  }

  /** The names the restore needs are free and the backup is the source's. */
  predicate Possible(profile: Profile, req: Request, artifacts: Artifacts, s: State) {
    && SlotOf(profile, req) !in s.filestores && StagingOf(profile, req) !in s.filestores
    && Unpacked(req, artifacts).Ok?
    && artifacts.dump.odoo && HasAll(artifacts.dump, profile.allowed)
    && artifacts.dump.marker == Some(SourceMarker(req))
  }

  predicate Eligible(config: Config, req: Request, inbox: map<Id, Artifacts>, s: State) {
    && Gate(config, req).None? && req.operation in inbox
    && var profile := config.profiles[req.template];
    if req.database in s.databases then InPlace(profile, req, s)
    else Possible(profile, req, inbox[req.operation], s)
  }

  function Restored(profile: Profile, req: Request, artifacts: Artifacts, s: State): State
    requires Unpacked(req, artifacts).Ok?
  {
    State(s.databases[req.database := Database(profile.owner, artifacts.dump.(marker := Some(TargetMarker(req))))],
          s.filestores[SlotOf(profile, req) := Folder(Unpacked(req, artifacts).value.files, profile.user, false)])
  }

  /** Staging holds what an interrupted extraction has written so far, and nothing else has changed. */
  ghost predicate Escaped(profile: Profile, req: Request, artifacts: Artifacts, s: State, s': State) {
    var staging := StagingOf(profile, req);
    && s'.databases == s.databases && staging in s'.filestores && s'.filestores[staging].Folder?
    && s'.filestores == s.filestores[staging := Folder(s'.filestores[staging].files, 0, false)]
    && Filestore.Interrupted(artifacts.members, req.sourceDatabase, s'.filestores[staging].files)
  }

  /** Why a request that may run here is turned down when every command works. */
  function Reason(profile: Profile, req: Request, inbox: map<Id, Artifacts>, s: State): Error {
    if req.operation !in inbox then ArtifactsInvalid
    else if req.database in s.databases then
      if MarkerOf(s.databases, req.database) != Some(TargetMarker(req)) then NameConflict
      else if s.databases[req.database].owner != profile.owner then OwnerMismatch
      else if SlotOf(profile, req) !in s.filestores || !s.filestores[SlotOf(profile, req)].Folder? then FilestoreInvalid
      else if !OdooOf(s.databases, req.database) then SchemaInvalid
      else ModuleNotInstalled
    else if SlotOf(profile, req) in s.filestores then FilestoreConflict
    else if StagingOf(profile, req) in s.filestores then StagingConflict
    else BuildReason(req, inbox[req.operation])
  }

  /** Why the try block fails. */
  function BuildReason(req: Request, artifacts: Artifacts): Error {
    if Unpacked(req, artifacts).Err? then ArchiveRejected
    else if !artifacts.dump.odoo then SchemaInvalid
    else if artifacts.dump.marker != Some(SourceMarker(req)) then MarkerMismatch
    else ModuleNotInstalled
  }

  /** Commands whose failure can keep the engine from cleaning up. */
  const UNSAFE := DROP_FAULTS + {Inventory, Removing, Escaping}

  ghost predicate Effect(config: Config, req: Request, inbox: map<Id, Artifacts>,
                         s: State, r: Reply, s': State, faults: set<Fault>) {
    && (r == Validated || r.Failed?)
    && (r == Validated ==>
          && Eligible(config, req, inbox, s)
          && s' == if req.database in s.databases then s
                   else Restored(config.profiles[req.template], req, inbox[req.operation], s))
    && (faults == {} && Eligible(config, req, inbox, s) ==> r == Validated)
    && (Gate(config, req).Some? ==> r == Failed(Gate(config, req).value))
    && (faults == {} && Gate(config, req).None? && req.operation in inbox && req.database in s.databases ==>
          (r == Failed(NameConflict) <==> MarkerOf(s.databases, req.database) != Some(TargetMarker(req))))
    && (r.Failed? && faults !! UNSAFE ==> s' == s)
    && (faults == {} && Gate(config, req).None? && r.Failed? ==>
          r.error == Reason(config.profiles[req.template], req, inbox, s))
    && (r == Failed(Internal) ==>
          && Escaping in faults && Gate(config, req).None? && req.operation in inbox && req.database !in s.databases
          && Escaped(config.profiles[req.template], req, inbox[req.operation], s, s'))
    && (s' != s ==>
          && Gate(config, req).None? && req.operation in inbox && req.database !in s.databases
          && var profile := config.profiles[req.template];
          var slot, staging := SlotOf(profile, req), StagingOf(profile, req);
          && slot !in s.filestores && staging !in s.filestores
          && s'.databases - {req.database} == s.databases
          && s'.filestores - {slot, staging} == s.filestores
          && (r.Failed? ==> slot !in s'.filestores)
          && MarkerOf(s'.databases, req.database) in
               {None, inbox[req.operation].dump.marker, Some(TargetMarker(req))})
  }

  datatype Replay = Absent | Same | Conflict(error: Error)

  class RestoreEngine {
    const node: Node
    const config: Config
    /** The downloaded artifact sets that pass the checksum and manifest validation. */
    const inbox: map<Id, Artifacts>

    constructor (node: Node, config: Config, inbox: map<Id, Artifacts>)
      ensures this.node == node && this.config == config && this.inbox == inbox
    {
      this.node := node;
      this.config := config;
      this.inbox := inbox;
    }

    /** _validated_replay */
    method ValidatedReplay(req: Request, profile: Profile) returns (r: Replay)
      modifies node`faults
      ensures r.Absent? ==> req.database !in node.databases && node.faults == old(node.faults)
      ensures r.Same? ==> InPlace(profile, req, node.Snapshot())
      ensures r != Conflict(Internal)
      ensures node.faults == {} && req.database !in node.databases ==> r.Absent?
      ensures node.faults == {} && InPlace(profile, req, node.Snapshot()) ==> r.Same?
      ensures old(node.faults) <= node.faults
      ensures node.faults == {} && req.database in node.databases ==>
        (r == Conflict(NameConflict) <==> MarkerOf(node.databases, req.database) != Some(TargetMarker(req)))
      ensures node.faults == {} && r.Conflict? ==>
        && req.database in node.databases
        && r.error ==
             if MarkerOf(node.databases, req.database) != Some(TargetMarker(req)) then NameConflict
             else if node.databases[req.database].owner != profile.owner then OwnerMismatch
             else if SlotOf(profile, req) !in node.filestores || !node.filestores[SlotOf(profile, req)].Folder?
             then FilestoreInvalid
             else if !OdooOf(node.databases, req.database) then SchemaInvalid
             else ModuleNotInstalled
    {
      var present := node.DatabaseExists(req.database);
      if present == Value(false) { return Absent; }
      if present.Raised? { return Conflict(CommandUnavailable); }
      var marker := node.ReadMarker(req.database);
      if marker != Value(Some(TargetMarker(req))) { return Conflict(NameConflict); }
      var owner := node.DatabaseOwner(req.database);
      if owner != Value(Some(profile.owner)) { return Conflict(OwnerMismatch); }
      var slot := SlotOf(profile, req);
      if slot !in node.filestores || !node.filestores[slot].Folder? { return Conflict(FilestoreInvalid); }
      var odoo := node.SourceIsOdoo(req.database);
      if odoo != Value(true) { return Conflict(SchemaInvalid); }
      var installed := node.ValidateModules(req.database, profile.allowed);
      return if installed then Same else Conflict(ModuleNotInstalled);
    }

    /** Creates the staging folder, extracts into it and hands it to the tenant's account. */
    method Stage(req: Request, profile: Profile, artifacts: Artifacts) returns (error: Option<Error>)
      requires StagingOf(profile, req) !in node.filestores
      modifies node`filestores, node`faults
      ensures old(node.faults) <= node.faults <= old(node.faults) + {Copying, Owning, Extracting, Escaping}
      ensures var fs, fs', staging := old(node.filestores), node.filestores, StagingOf(profile, req);
        && fs' - {staging} == fs
        && (staging in fs' ==> fs'[staging].Folder?)
        && (error.None? ==>
              && Unpacked(req, artifacts).Ok?
              && fs' == fs[staging := Folder(Unpacked(req, artifacts).value.files, profile.user, false)])
      ensures node.faults == {} && Unpacked(req, artifacts).Ok? ==> error.None?
      ensures node.faults == {} && error.Some? ==> error.value == ArchiveRejected && Unpacked(req, artifacts).Err?
      ensures error == Some(Internal) ==>
        Escaping in node.faults && Escaped(profile, req, artifacts, old(node.Snapshot()), node.Snapshot())
    {
      hide Filestore.Extracted, Filestore.Confined, Filestore.Interrupted;
      var staging := StagingOf(profile, req);
      ghost var fs := node.filestores;
      var made := node.MakeFolder(staging, map[]);
      if !made { return Some(FilestoreFailed); }
      var tree := new Filestore.Staging();
      var extraction := tree.Extract(artifacts.members, req.sourceDatabase);
      node.filestores := node.filestores[staging := Folder(tree.files, 0, false)];
      if extraction.Escaped? {
        node.faults := node.faults + {Escaping};
        return Some(Internal);
      }
      if tree.faulty { node.faults := node.faults + {Extracting}; }
      if !extraction.Complete? { return Some(ArchiveRejected); }
      var owned := node.Chown(staging, profile.user);
      return if owned then None else Some(FilestoreFailed);
    }

    /** What follows pg_restore: the checks on what came back, and the target marker. */
    method Adopt(req: Request, profile: Profile) returns (error: Option<Error>)
      requires req.database in node.databases
      modifies node`databases, node`faults
      ensures old(node.faults) <= node.faults <= old(node.faults) + {Inventory, Reading, Marking}
      ensures var d, t := old(node.databases), req.database;
        && (node.databases == d || node.databases == d[t := WithMarker(d[t], TargetMarker(req))])
        && (error.None? ==>
              && d[t].contents.odoo && HasAll(d[t].contents, profile.allowed)
              && Owned(d, t, profile.owner, SourceMarker(req))
              && node.databases == d[t := WithMarker(d[t], TargetMarker(req))])
        && (d[t].contents.odoo && HasAll(d[t].contents, profile.allowed)
            && Owned(d, t, profile.owner, SourceMarker(req)) && node.faults == {} ==>
              error.None?)
        && (node.faults == {} && error.Some? && d[t].owner == profile.owner ==>
              error.value == if !d[t].contents.odoo then SchemaInvalid
                             else if d[t].contents.marker != Some(SourceMarker(req)) then MarkerMismatch
                             else ModuleNotInstalled)
      ensures error != Some(Internal)
    {
      var t := req.database;
      var owner := node.DatabaseOwner(t);
      if owner != Value(Some(profile.owner)) { return Some(OwnerMismatch); }
      var odoo := node.SourceIsOdoo(t);
      if odoo != Value(true) { return Some(SchemaInvalid); }
      var marker := node.ReadMarker(t);
      if marker != Value(Some(SourceMarker(req))) { return Some(MarkerMismatch); }
      var installed := node.ValidateModules(t, profile.allowed);
      if !installed { return Some(ModuleNotInstalled); }
      var marked := node.WriteMarker(t, TargetMarker(req));
      if !marked { return Some(MarkerFailed); }
      marker := node.ReadMarker(t);
      if marker != Value(Some(TargetMarker(req))) { return Some(MarkerMismatch); }
      return None;
    }

    /** createdb, pg_restore, the checks on what came back, and the target marker. */
    method Load(req: Request, profile: Profile, dump: Contents) returns (error: Option<Error>, databaseCreated: bool)
      requires req.database !in node.databases
      modifies node`databases, node`faults
      ensures old(node.faults) <= node.faults
        <= old(node.faults) + {Creating, LoadExit, LoadRaised, Inventory, Reading, Marking}
      ensures node.databases - {req.database} == old(node.databases)
      ensures databaseCreated ==> req.database in node.databases
      ensures MarkerOf(node.databases, req.database) in {None, dump.marker, Some(TargetMarker(req))}
      ensures error.None? ==>
        && dump.odoo && HasAll(dump, profile.allowed) && dump.marker == Some(SourceMarker(req))
        && node.databases ==
           old(node.databases)[req.database := Database(profile.owner, dump.(marker := Some(TargetMarker(req))))]
      ensures dump.odoo && HasAll(dump, profile.allowed) && dump.marker == Some(SourceMarker(req)) && node.faults == {}
        ==> error.None?
      ensures node.faults == {} && error.Some? ==>
        error.value == if !dump.odoo then SchemaInvalid
                       else if dump.marker != Some(SourceMarker(req)) then MarkerMismatch else ModuleNotInstalled
      ensures error != Some(Internal)
    {
      var t := req.database;
      var created := node.Create(t, profile.owner);
      if !created.Success? { return Some(CreateFailed), false; }
      var loaded := node.Load(t, dump);
      if !loaded.Success? { return Some(LoadFailed), false; }
      error := Adopt(req, profile);
      return error, true;
    }

    /** The two exception handlers of restore; only the first one looks at the final filestore name. */
    method Recover(req: Request, profile: Profile, databaseCreated: bool, typedError: bool) returns (raised: bool)
      requires req.database in node.databases || !databaseCreated
      requires StagingOf(profile, req) in node.filestores ==> node.filestores[StagingOf(profile, req)].Folder?
      modifies node
      ensures old(node.faults) <= node.faults <= old(node.faults) + DROP_FAULTS + {Inventory, Removing, Reading}
      ensures raised ==> node.faults != {}
      ensures node.databases == old(node.databases) || node.databases == old(node.databases) - {req.database}
      ensures var fs, fs', slot, staging :=
        old(node.filestores), node.filestores, SlotOf(profile, req), StagingOf(profile, req);
        && fs' - {slot, staging} == fs - {slot, staging}
        && (slot !in fs ==> slot !in fs')
        && (slot !in fs && node.faults !! UNSAFE ==>
              fs' == fs - {staging} && node.databases == old(node.databases) - {req.database})
    {
      var slot, staging := SlotOf(profile, req), StagingOf(profile, req);
      ghost var fs := node.filestores;
      var drop := databaseCreated;
      if !drop {
        var present := node.DatabaseExists(req.database);
        if present.Raised? { return true; }
        drop := present.value;
      }
      if drop {
        var dropped := node.Drop(req.database);
        if dropped.Unavailable? { return true; }
      }
      var _ := node.RemoveTree(staging);
      raised := false;
      assert fs - {slot, staging} == fs - {staging} - {slot};
      assert slot in node.filestores ==> slot in node.filestores - {staging};
      if typedError { raised := DiscardFinal(req, profile); }
      assert node.filestores - {slot, staging} == node.filestores - {slot} - {staging};
      return raised;
    }

    /** Removes a final filestore that no target marker vouches for. */
    method DiscardFinal(req: Request, profile: Profile) returns (raised: bool)
      modifies node`filestores, node`faults
      ensures old(node.faults) <= node.faults <= old(node.faults) + {Inventory, Removing, Reading}
      ensures raised ==> node.faults != {}
      ensures node.filestores - {SlotOf(profile, req)} == old(node.filestores) - {SlotOf(profile, req)}
      ensures SlotOf(profile, req) !in old(node.filestores) ==> node.filestores == old(node.filestores)
    {
      var slot := SlotOf(profile, req);
      if !Exists(node.filestores, slot) || node.filestores[slot].Link? { return false; }
      var marker: Answer<Option<Marker>> := Value(None);
      var present := node.DatabaseExists(req.database);
      if present.Raised? { return true; }
      if present.value { marker := node.ReadMarker(req.database); }
      if marker.Raised? { return true; }
      if marker.value != Some(TargetMarker(req)) {
        var _ := node.RemoveTree(slot);
      }
      return false;
    }

    /** The body of the try block, ending with the rename to the final name. */
    method Build(req: Request, profile: Profile, artifacts: Artifacts)
      returns (error: Option<Error>, databaseCreated: bool, typedError: bool)
      requires req.database !in node.databases
      requires SlotOf(profile, req) !in node.filestores && StagingOf(profile, req) !in node.filestores
      modifies node
      ensures old(node.faults) <= node.faults
      ensures var d, d' := old(node.databases), node.databases;
        && d' - {req.database} == d && (databaseCreated ==> req.database in d')
        && MarkerOf(d', req.database) in {None, artifacts.dump.marker, Some(TargetMarker(req))}
      ensures var fs, fs', staging := old(node.filestores), node.filestores, StagingOf(profile, req);
        && (error.Some? ==> fs' - {staging} == fs && (staging in fs' ==> fs'[staging].Folder?))
      ensures error == Some(Internal) ==>
        Escaping in node.faults && Escaped(profile, req, artifacts, old(node.Snapshot()), node.Snapshot())
      ensures error.None? ==>
        && Possible(profile, req, artifacts, old(node.Snapshot()))
        && node.Snapshot() == Restored(profile, req, artifacts, old(node.Snapshot()))
      ensures node.faults == {} && Possible(profile, req, artifacts, old(node.Snapshot())) ==> error.None?
      ensures node.faults == {} && error.Some? ==> error.value == BuildReason(req, artifacts)
    {
      typedError := true;
      databaseCreated := false;
      error := Stage(req, profile, artifacts);
      if error.Some? { return; }
      ghost var before := old(node.filestores);
      error, databaseCreated := Load(req, profile, artifacts.dump);
      if error.Some? { return; }
      ghost var staged := node.filestores;
      var renamed := node.Rename(StagingOf(profile, req), SlotOf(profile, req));
      if !renamed { return Some(FilestoreFailed), databaseCreated, false; }
      assert staged - {StagingOf(profile, req)} == before;
    }

    /** restore */
    method Run(req: Request) returns (r: Reply)
      modifies node
      ensures Effect(config, req, inbox, old(node.Snapshot()), r, node.Snapshot(), node.faults)
    {
      node.faults := {};
      ghost var s := node.Snapshot();
      var gate := Gate(config, req);
      if gate.Some? { return Failed(gate.value); }
      var profile := config.profiles[req.template];
      if req.operation !in inbox { return Failed(ArtifactsInvalid); }
      var artifacts := inbox[req.operation];
      var replay := ValidatedReplay(req, profile);
      if replay.Same? { return Validated; }
      if replay.Conflict? { return Failed(replay.error); }
      if SlotOf(profile, req) in node.filestores { return Failed(FilestoreConflict); }
      if StagingOf(profile, req) in node.filestores { return Failed(StagingConflict); }
      var error, databaseCreated, typedError := Build(req, profile, artifacts);
      if error.None? { return Validated; }
      if error == Some(Internal) { return Failed(Internal); }
      var slot, staging := SlotOf(profile, req), StagingOf(profile, req);
      ghost var mid := node.Snapshot();
      assert mid.filestores - {slot, staging} == s.filestores by {
        assert mid.filestores - {slot, staging} == mid.filestores - {staging} - {slot};
      }
      assert slot !in mid.filestores by { assert slot in mid.filestores ==> slot in mid.filestores - {staging}; }
      var raised := Recover(req, profile, databaseCreated, typedError);
      assert node.databases - {req.database} == s.databases;
      return Failed(if raised then CommandUnavailable else error.value);
    }
  }

  // -- what a reply means -----------------------------------------------------------------------

  /** A validated restore: the request was allowed here; a database that was there is the restored one, under
      exactly the target's marker, with its folder, and nothing changes; otherwise the target is the dump under
      the target's marker, which carried the source's, and the extracted archive as its filestore. */
  lemma ValidatedMeans(config: Config, req: Request, inbox: map<Id, Artifacts>, s: State, s': State, faults: set<Fault>)
    requires Effect(config, req, inbox, s, Validated, s', faults)
    ensures config.enabled && config.phase == TestOnly && req.environment == Test && req.template in config.profiles
    ensures var p, d := config.profiles[req.template], req.database;
      var slot, target := Tenant(p.root, d), Marker(req.tenant, req.template, req.operation);
      && p.prefix + "_restore_" <= d && d != p.source && req.sourceDatabase != p.source && req.operation in inbox
      && (d in s.databases ==>
            && s' == s && s.databases[d].owner == p.owner && s.databases[d].contents.marker == Some(target)
            && s.databases[d].contents.odoo && p.allowed <= s.databases[d].contents.modules
            && slot in s.filestores && s.filestores[slot].Folder?)
      && (d !in s.databases ==>
            var dump := inbox[req.operation].dump;
            var members := inbox[req.operation].members;
            var tree := Filestore.Extracted(Filestore.Progress(0, 0, map[]), members, req.sourceDatabase);
            && slot !in s.filestores && Slot.Staging(p.root, req.operation) !in s.filestores
            && dump.odoo && p.allowed <= dump.modules
            && dump.marker == Some(Marker(req.sourceTenant, req.template, req.provisioning)) && tree.Ok?
            && s' == State(s.databases[d := Database(p.owner, dump.(marker := Some(target)))],
                           s.filestores[slot := Folder(tree.value.files, p.user, false)]))
  {
    hide Filestore.Extracted;
  }

  /** Without faults that is exactly when a request is answered validated; everything else changes nothing. */
  lemma ValidatedIff(config: Config, req: Request, inbox: map<Id, Artifacts>, s: State, r: Reply, s': State)
    requires Effect(config, req, inbox, s, r, s', {})
    ensures r == Validated <==>
      && config.enabled && config.phase == TestOnly && req.environment == Test && req.template in config.profiles
      && var p, d := config.profiles[req.template], req.database;
      var slot, target := Tenant(p.root, d), Marker(req.tenant, req.template, req.operation);
      && p.prefix + "_restore_" <= d && d != p.source && req.sourceDatabase != p.source && req.operation in inbox
      && if d in s.databases then
           && s.databases[d].owner == p.owner && s.databases[d].contents.marker == Some(target)
           && s.databases[d].contents.odoo && p.allowed <= s.databases[d].contents.modules
           && slot in s.filestores && s.filestores[slot].Folder?
         else
           var dump := inbox[req.operation].dump;
           var members := inbox[req.operation].members;
           var tree := Filestore.Extracted(Filestore.Progress(0, 0, map[]), members, req.sourceDatabase);
           && slot !in s.filestores && Slot.Staging(p.root, req.operation) !in s.filestores
           && dump.odoo && p.allowed <= dump.modules
           && dump.marker == Some(Marker(req.sourceTenant, req.template, req.provisioning)) && tree.Ok?
    ensures r != Validated ==> s' == s
  {
    hide Filestore.Extracted;
  }

  /** What a failed restore can leave on a free name: nothing, unless dropdb, the inventory query or rmtree
      misbehaved or an exception escaped; then at most the target database without a foreign marker and the
      staging folder, never the final filestore. */
  lemma FailedRestoreMeans(config: Config, req: Request, inbox: map<Id, Artifacts>, s: State, e: Error, s': State,
                           faults: set<Fault>)
    requires Effect(config, req, inbox, s, Failed(e), s', faults) && s' != s
    ensures !(faults !! {DropExit, DropRaised, DropSilent, Inventory, Removing, Escaping})
    ensures req.template in config.profiles && req.operation in inbox && req.database !in s.databases
    ensures var p := config.profiles[req.template];
      var slot, staging := Tenant(p.root, req.database), Slot.Staging(p.root, req.operation);
      && s'.databases - {req.database} == s.databases
      && s'.filestores - {slot, staging} == s.filestores && slot !in s'.filestores && slot !in s.filestores
      && (e == Internal ==>
            && s'.databases == s.databases && s'.filestores - {staging} == s.filestores
            && staging in s'.filestores && s'.filestores[staging].Folder?
            && s'.filestores[staging].user == 0 && !s'.filestores[staging].links)
      && (req.database in s'.databases ==>
            s'.databases[req.database].contents.marker in
              {None, inbox[req.operation].dump.marker, Some(Marker(req.tenant, req.template, req.operation))})
  {
    if e == Internal {
      var staging := Slot.Staging(config.profiles[req.template].root, req.operation);
      assert s'.filestores - {staging} == s.filestores;
    }
  }

  /** And the reason for turning down a request that may run here: for a database that is there what it lacks to be
      the restored one; otherwise what is in the way, or what is wrong with the archive or the dump. */
  lemma TurnedDownMeans(config: Config, req: Request, inbox: map<Id, Artifacts>, s: State, e: Error, s': State)
    requires Effect(config, req, inbox, s, Failed(e), s', {}) && Gate(config, req).None?
    ensures req.template in config.profiles
    ensures var p, d := config.profiles[req.template], req.database;
      var slot := Tenant(p.root, d);
      if req.operation !in inbox then e == ArtifactsInvalid
      else if d in s.databases then
        if s.databases[d].contents.marker != Some(Marker(req.tenant, req.template, req.operation))
        then e == NameConflict
        else if s.databases[d].owner != p.owner then e == OwnerMismatch
        else if !(slot in s.filestores && s.filestores[slot].Folder?) then e == FilestoreInvalid
        else if !s.databases[d].contents.odoo then e == SchemaInvalid
        else e == ModuleNotInstalled && !(p.allowed <= s.databases[d].contents.modules)
      else
        var dump, members := inbox[req.operation].dump, inbox[req.operation].members;
        if slot in s.filestores then e == FilestoreConflict
        else if Slot.Staging(p.root, req.operation) in s.filestores then e == StagingConflict
        else if Filestore.Extracted(Filestore.Progress(0, 0, map[]), members, req.sourceDatabase).Err?
        then e == ArchiveRejected
        else if !dump.odoo then e == SchemaInvalid
        else if dump.marker != Some(Marker(req.sourceTenant, req.template, req.provisioning)) then e == MarkerMismatch
        else e == ModuleNotInstalled && !(p.allowed <= dump.modules)
  {
    hide Filestore.Extracted;
  }

  /** The answer to a request that may not run here. */
  lemma GateMeans(config: Config, req: Request)
    ensures var allowed := config.enabled && config.phase == TestOnly && req.environment == Test;
      && (!allowed ==> Gate(config, req) == Some(EnvironmentBlocked))
      && (allowed ==>
            if req.template !in config.profiles then Gate(config, req) == Some(ProfileMissing)
            else
              var p := config.profiles[req.template];
              && (req.database == p.source ==> Gate(config, req) == Some(SourceConflict))
              && (req.database != p.source && !(p.prefix + "_restore_" <= req.database) ==>
                    Gate(config, req) == Some(PrefixMismatch))
              && (req.database != p.source && p.prefix + "_restore_" <= req.database ==>
                    Gate(config, req) == if req.sourceDatabase == p.source then Some(SourceConflict) else None))
  {
  }
}
