/** BackupEngine: dump, archive and manifest of one tenant in a workspace of its own. */
module Backup {
  import opened Common
  import opened NodeState
  import Filestore

  datatype Request = Request(operation: Id, tenant: Id, environment: Environment, template: Id,
                             provisioning: Id, database: Name)

  /** Hashing is injective, so the manifest is taken to name the artifacts' contents. */
  datatype ManifestFile = ManifestFile(backup: Id, tenant: Id, environment: Environment, template: Id, provisioning: Id,
                                       database: Name, dump: Contents, archive: seq<Filestore.Member>)

  datatype Workspace = Workspace(
    dump: Option<Contents>, archive: Option<seq<Filestore.Member>>, manifest: Option<ManifestFile>)

  function Gate(config: Config, req: Request): Option<Error> {
    if !config.enabled then Some(Disabled)
    else if config.phase != TestOnly || req.environment != Test then Some(EnvironmentBlocked)
    else if req.template !in config.profiles then Some(ProfileMissing)
    else
      var profile := config.profiles[req.template];
      if req.database == profile.source then Some(SourceConflict)
      else if !HasPrefix(req.database, profile.prefix) then Some(PrefixMismatch)
      else None
  }

  function Expected(req: Request): Marker { Marker(req.tenant, req.template, req.provisioning) }

  /** _prepared_response accepts the workspace. */
  predicate Complete(w: Workspace, req: Request) {
    && w.dump.Some? && w.archive.Some?
    && w.manifest == Some(ManifestFile(req.operation, req.tenant, req.environment, req.template, req.provisioning,
                                       req.database, w.dump.value, w.archive.value))
  }

  /** The forest is the folder's files in the order of a walk; one with hard links has none. */
  predicate Walks(tree: Filestore.Forest, files: Filestore.Files) {
    Filestore.WellFormed(tree) && Filestore.Flatten(tree, []) == files
  }

  /** The forest walks the folder, if the folder can be walked. */
  ghost predicate WalksIfAny(walk: Filestore.Forest, fs: map<Slot, Entry>, slot: Slot) {
    slot in fs && fs[slot].Folder? && (exists tree :: Walks(tree, fs[slot].files)) ==> Walks(walk, fs[slot].files)
  }

  /** The member list archives the files under the database's name, walking them as `tree`. */
  predicate Archives(members: seq<Filestore.Member>, database: Name, files: Filestore.Files, tree: Filestore.Forest) {
    Walks(tree, files) && members == Filestore.Archive(database, tree)
  }

  /** The workspace holds the tenant's present contents and filestore. */
  ghost predicate Captures(w: Workspace, req: Request, s: State, slot: Slot) {
    && Complete(w, req)
    && req.database in s.databases && w.dump.value == s.databases[req.database].contents
    && slot in s.filestores && s.filestores[slot].Folder?
    && exists tree :: Archives(w.archive.value, req.database, s.filestores[slot].files, tree)
  }

  /** The database and the filestore are the request's own, and the workspace is complete or absent. */
  ghost predicate Eligible(config: Config, req: Request, s: State, ws: map<Id, Workspace>) {
    && Gate(config, req).None?
    && var profile := config.profiles[req.template];
    var slot := Tenant(profile.root, req.database);
    && Owned(s.databases, req.database, profile.owner, Expected(req))
    && ValidFilestore(s.filestores, slot, profile.user)
    && if req.operation in ws then Complete(ws[req.operation], req)
       else exists tree :: Walks(tree, s.filestores[slot].files)
  }

  /** Why a request that may run here is turned down when every command works. */
  function Reason(profile: Profile, req: Request, s: State, ws: map<Id, Workspace>): Error {
    if req.database !in s.databases then DatabaseMissing
    else if s.databases[req.database].owner != profile.owner then OwnerMismatch
    else if MarkerOf(s.databases, req.database) != Some(Expected(req)) then MarkerMismatch
    else if !ValidFilestore(s.filestores, Tenant(profile.root, req.database), profile.user) then FilestoreInvalid
    else if req.operation in ws then WorkspaceConflict
    else BackupFailed
  }

  ghost predicate Effect(config: Config, req: Request, s: State, ws: map<Id, Workspace>, r: Reply,
                         ws': map<Id, Workspace>, faults: set<Fault>) {
    && (r == Prepared || r.Failed?)
    && ws' - {req.operation} == ws - {req.operation}
    && (req.operation in ws ==> ws' == ws)
    && (r == Prepared ==>
          && Gate(config, req).None?
          && var profile := config.profiles[req.template];
          && Owned(s.databases, req.database, profile.owner, Expected(req))
          && ValidFilestore(s.filestores, Tenant(profile.root, req.database), profile.user)
          && req.operation in ws' && Complete(ws'[req.operation], req)
          && (req.operation !in ws ==> Captures(ws'[req.operation], req, s, Tenant(profile.root, req.database))))
    && (Gate(config, req).Some? ==> r == Failed(Gate(config, req).value))
    && (r.Failed? && Removing !in faults ==> ws' == ws)
    && (faults == {} ==> (r == Prepared <==> Eligible(config, req, s, ws)))
    && (faults == {} && Gate(config, req).None? && r.Failed? ==>
          r.error == Reason(config.profiles[req.template], req, s, ws))
    && (r == Failed(MarkerMismatch) ==>
          && req.database in s.databases && req.template in config.profiles
          && s.databases[req.database].owner == config.profiles[req.template].owner
          && (Reading in faults || MarkerOf(s.databases, req.database) != Some(Expected(req))))
  }

  class BackupEngine {
    const node: Node
    const config: Config
    var workspaces: map<Id, Workspace>

    constructor (node: Node, config: Config)
      ensures this.node == node && this.config == config && workspaces == map[]
    {
      this.node := node;
      this.config := config;
      workspaces := map[];
    }

    /** Removes the workspace of a failed backup. */
    method Discard(operation: Id)
      modifies `workspaces, node`faults
      ensures old(node.faults) <= node.faults <= old(node.faults) + {Removing}
      ensures workspaces - {operation} == old(workspaces) - {operation}
      ensures Removing !in node.faults ==> workspaces == old(workspaces) - {operation}
    {
      var fails := *;
      if fails { node.faults := node.faults + {Removing}; } else { workspaces := workspaces - {operation}; }
    }

    /** A step of the try block that may fail on the work directory. */
    method Write(operation: Id, w: Workspace) returns (ok: bool)
      modifies `workspaces, node`faults
      ensures old(node.faults) <= node.faults <= old(node.faults) + {Copying}
      ensures workspaces - {operation} == old(workspaces) - {operation}
      ensures ok ==> workspaces == old(workspaces)[operation := w]
      ensures Copying !in node.faults ==> ok
    {
      var fails, takes := *, *;
      if !fails || takes { workspaces := workspaces[operation := w]; }
      if fails { node.faults := node.faults + {Copying}; }
      return !fails;
    }

    /** The body of the try block: directory, dump, archive, manifest. */
    method Fill(req: Request, slot: Slot, walk: Filestore.Forest) returns (ok: bool)
      requires req.operation !in workspaces
      requires slot in node.filestores && node.filestores[slot].Folder?
      modifies `workspaces, node`faults
      ensures old(node.faults) <= node.faults
      ensures workspaces - {req.operation} == old(workspaces)
      ensures ok ==>
        && req.operation in workspaces && Captures(workspaces[req.operation], req, node.Snapshot(), slot)
        && Walks(walk, node.filestores[slot].files)
      ensures req.database in node.databases && node.faults == {} && Walks(walk, node.filestores[slot].files) ==> ok
    {
      ghost var before := workspaces;
      var written := Write(req.operation, Workspace(None, None, None));
      if !written { return false; }
      var dumped := node.Dump(req.database);
      if dumped.Raised? { return false; }
      written := Write(req.operation, Workspace(Some(dumped.value), None, None));
      if !written { return false; }
      if !Walks(walk, node.filestores[slot].files) { return false; }
      var archive := Filestore.Archive(req.database, walk);
      written := Write(req.operation, Workspace(Some(dumped.value), Some(archive), None));
      if !written { return false; }
      var manifest := ManifestFile(req.operation, req.tenant, req.environment, req.template, req.provisioning,
                                   req.database, dumped.value, archive);
      written := Write(req.operation, Workspace(Some(dumped.value), Some(archive), Some(manifest)));
      if !written { return false; }
      assert Archives(workspaces[req.operation].archive.value, req.database, node.filestores[slot].files, walk);
      return true;
    }

    /** backup; `walk` is the order in which tarfile meets the files of the tenant's folder. */
    method Run(req: Request, walk: Filestore.Forest) returns (r: Reply)
      requires Gate(config, req).None? ==>
        WalksIfAny(walk, node.filestores, Tenant(config.profiles[req.template].root, req.database))
      modifies `workspaces, node`faults
      ensures Effect(config, req, node.Snapshot(), old(workspaces), r, workspaces, node.faults)
    {
      node.faults := {};
      var gate := Gate(config, req);
      if gate.Some? { return Failed(gate.value); }
      var profile := config.profiles[req.template];
      var error := node.CheckOwned(req.database, profile.owner, Expected(req));
      if error.Some? { return Failed(error.value); }
      var slot := Tenant(profile.root, req.database);
      if !ValidFilestore(node.filestores, slot, profile.user) { return Failed(FilestoreInvalid); }
      if req.operation in workspaces {
        return if Complete(workspaces[req.operation], req) then Prepared else Failed(WorkspaceConflict);
      }
      var filled := Fill(req, slot, walk);
      if filled { return Prepared; }
      Discard(req.operation);
      return Failed(BackupFailed);
    }
  }

  // -- what a reply means -----------------------------------------------------------------------

  /** A prepared backup: the tenant's database under exactly the marker of its provisioning, with a real folder of
      the profile's user without links, on a node for test tenants; and a workspace whose manifest names the
      request and the two artifacts.  A new workspace holds the present contents and an archive of the present
      files; one that was there before is as it was, and so is every other. */
  lemma PreparedMeans(config: Config, req: Request, s: State, ws: map<Id, Workspace>, ws': map<Id, Workspace>,
                      faults: set<Fault>)
    requires Effect(config, req, s, ws, Prepared, ws', faults)
    ensures config.enabled && config.phase == TestOnly && req.environment == Test && req.template in config.profiles
    ensures var p, d, b := config.profiles[req.template], req.database, req.operation;
      var slot := Tenant(p.root, d);
      && d != p.source && p.prefix + "_" <= d
      && d in s.databases && s.databases[d].owner == p.owner
      && s.databases[d].contents.marker == Some(Marker(req.tenant, req.template, req.provisioning))
      && slot in s.filestores && s.filestores[slot].Folder?
      && s.filestores[slot].user == p.user && !s.filestores[slot].links
      && ws' - {b} == ws - {b} && (b in ws ==> ws' == ws) && b in ws'
      && ws'[b].dump.Some? && ws'[b].archive.Some?
      && ws'[b].manifest == Some(ManifestFile(b, req.tenant, Test, req.template, req.provisioning, d,
                                              ws'[b].dump.value, ws'[b].archive.value))
      && (b !in ws ==>
            && ws'[b].dump.value == s.databases[d].contents
            && exists tree :: Filestore.WellFormed(tree) && Filestore.Flatten(tree, []) == s.filestores[slot].files
                              && ws'[b].archive.value == Filestore.Archive(d, tree))
  {
    var p, d, b := config.profiles[req.template], req.database, req.operation;
    var slot := Tenant(p.root, d);
    if b !in ws {
      var tree :| Archives(ws'[b].archive.value, d, s.filestores[slot].files, tree);
      assert Filestore.WellFormed(tree) && Filestore.Flatten(tree, []) == s.filestores[slot].files;
    }
  }

  /** Without faults that is exactly when a request is answered prepared. */
  lemma PreparedIff(config: Config, req: Request, s: State, ws: map<Id, Workspace>, r: Reply, ws': map<Id, Workspace>)
    requires Effect(config, req, s, ws, r, ws', {})
    ensures r == Prepared <==>
      && config.enabled && config.phase == TestOnly && req.environment == Test && req.template in config.profiles
      && var p, d, b := config.profiles[req.template], req.database, req.operation;
      var slot := Tenant(p.root, d);
      && d != p.source && p.prefix + "_" <= d
      && d in s.databases && s.databases[d].owner == p.owner
      && s.databases[d].contents.marker == Some(Marker(req.tenant, req.template, req.provisioning))
      && slot in s.filestores && s.filestores[slot].Folder?
      && s.filestores[slot].user == p.user && !s.filestores[slot].links
      && if b in ws then
           && ws[b].dump.Some? && ws[b].archive.Some?
           && ws[b].manifest == Some(ManifestFile(b, req.tenant, Test, req.template, req.provisioning, d,
                                                  ws[b].dump.value, ws[b].archive.value))
         else exists tree :: Filestore.WellFormed(tree) && Filestore.Flatten(tree, []) == s.filestores[slot].files
    ensures r != Prepared ==> ws' == ws
  {
    if r == Prepared {
      PreparedMeans(config, req, s, ws, ws', {});
    } else if Gate(config, req).None? && req.operation !in ws {
      var slot := Tenant(config.profiles[req.template].root, req.database);
      if tree :| slot in s.filestores && s.filestores[slot].Folder?
                 && Filestore.WellFormed(tree) && Filestore.Flatten(tree, []) == s.filestores[slot].files {
        assert Walks(tree, s.filestores[slot].files);
      }
    }
  }

  /** And the reason for turning down a request that may run here; the last one is a folder that cannot be walked. */
  lemma TurnedDownMeans(config: Config, req: Request, s: State, ws: map<Id, Workspace>, e: Error,
                        ws': map<Id, Workspace>)
    requires Effect(config, req, s, ws, Failed(e), ws', {}) && Gate(config, req).None?
    ensures req.template in config.profiles
    ensures var p, d := config.profiles[req.template], req.database;
      var slot := Tenant(p.root, d);
      if d !in s.databases then e == DatabaseMissing
      else if s.databases[d].owner != p.owner then e == OwnerMismatch
      else if s.databases[d].contents.marker != Some(Marker(req.tenant, req.template, req.provisioning))
      then e == MarkerMismatch
      else if !(slot in s.filestores && s.filestores[slot].Folder?
                && s.filestores[slot].user == p.user && !s.filestores[slot].links)
      then e == FilestoreInvalid
      else e == if req.operation in ws then WorkspaceConflict else BackupFailed
  {
  }

  /** The answer to a request that may not run here. */
  lemma GateMeans(config: Config, req: Request)
    ensures var allowed := config.phase == TestOnly && req.environment == Test;
      && (!config.enabled ==> Gate(config, req) == Some(Disabled))
      && (config.enabled && !allowed ==> Gate(config, req) == Some(EnvironmentBlocked))
      && (config.enabled && allowed ==>
            if req.template !in config.profiles then Gate(config, req) == Some(ProfileMissing)
            else
              var p := config.profiles[req.template];
              && (req.database == p.source ==> Gate(config, req) == Some(SourceConflict))
              && (req.database != p.source && !(p.prefix + "_" <= req.database) ==>
                    Gate(config, req) == Some(PrefixMismatch))
              && (req.database != p.source && p.prefix + "_" <= req.database ==> Gate(config, req) == None))
  {
  }
}
