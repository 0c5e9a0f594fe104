/** ProvisioningEngine and the trial engine that rolls a provisioning back. */
module Provisioner {
  import opened Common
  import opened NodeState
  import Filestore

  datatype Request = Request(operation: Id, tenant: Id, environment: Environment, template: Id,
                             database: Name, modules: set<Module>)

  /** The checks that need no command. */
  function Gate(config: Config, req: Request): Option<Error> {
    if !config.enabled then Some(Disabled)
    else if req.environment == Trial && config.phase != TrialEnabled then Some(EnvironmentBlocked)
    else if req.environment == Production then Some(EnvironmentBlocked)
    else if req.template !in config.profiles then Some(ProfileMissing)
    else
      var profile := config.profiles[req.template];
      if !HasPrefix(req.database, profile.prefix) then Some(PrefixMismatch)
      else if !(req.modules <= profile.allowed) then Some(ModuleNotAllowed)
      else if req.database == profile.source then Some(SourceConflict)
      else None
  }

  function MarkerFor(req: Request): Marker { Marker(req.tenant, req.template, req.operation) }

  function SlotOf(profile: Profile, name: Name): Slot { Tenant(profile.root, name) }

  // -- what a provisioning promises -----------------------------------------------------------

  predicate CanPrepare(fs: map<Slot, Entry>, profile: Profile, name: Name) {
    var slot, source := SlotOf(profile, name), SlotOf(profile, profile.source);
    if Exists(fs, slot) then IsFolder(fs, slot)
    else slot !in fs && (IsFolder(fs, source) || profile.allowEmpty)
  }

  /** The filestore afterwards: kept, or copied from the source, or made empty. */
  function PreparedEntry(fs: map<Slot, Entry>, profile: Profile, name: Name): Entry {
    var slot, source := SlotOf(profile, name), SlotOf(profile, profile.source);
    if slot in fs then fs[slot]
    else Folder(if IsFolder(fs, source) then FilesOf(fs, source) else map[], profile.user, false)
  }

  predicate HasModules(databases: map<Name, Database>, n: Name, modules: set<Module>) {
    n in databases && modules <= databases[n].contents.modules
  }

  /** When the request can be carried out. */
  predicate Eligible(config: Config, req: Request, s: State) {
    && Gate(config, req).None?
    && var profile := config.profiles[req.template];
    && OdooOf(s.databases, profile.source)
    && CanPrepare(s.filestores, profile, req.database)
    && (req.database in s.databases ==> Matches(MarkerOf(s.databases, req.database), req.tenant, req.template))
    && HasModules(s.databases, if req.database in s.databases then req.database else profile.source, req.modules)
  }

  /** The database of a successful request: the present one, or the golden contents under the request's marker. */
  function ReadyDatabase(profile: Profile, req: Request, databases: map<Name, Database>): Database
    requires profile.source in databases
  {
    if req.database in databases then databases[req.database]
    else Database(profile.owner, databases[profile.source].contents.(marker := Some(MarkerFor(req))))
  }

  /** Nothing but the request's database and its filestore changes. */
  predicate Confines(req: Request, profile: Profile, s: State, s': State) {
    && s'.databases - {req.database} == s.databases - {req.database}
    && s'.filestores - {SlotOf(profile, req.database)} == s.filestores - {SlotOf(profile, req.database)}
  }

  ghost predicate ReadyEffect(config: Config, req: Request, s: State, s': State) {
    && Eligible(config, req, s)
    && var profile := config.profiles[req.template];
    && s'.databases == s.databases[req.database := ReadyDatabase(profile, req, s.databases)]
    && s'.filestores ==
         s.filestores[SlotOf(profile, req.database) := PreparedEntry(s.filestores, profile, req.database)]
  }

  /** Something that is no folder, and not a dangling link, has the filestore's name. */
  predicate Blocked(fs: map<Slot, Entry>, slot: Slot) { Exists(fs, slot) && !IsFolder(fs, slot) }

  /** Why a request that may run here is turned down when every command works. */
  function Reason(profile: Profile, req: Request, s: State): Error {
    if profile.source !in s.databases then SourceMissing
    else if !OdooOf(s.databases, profile.source) then SourceNotOdoo
    else if req.database in s.databases && !Matches(MarkerOf(s.databases, req.database), req.tenant, req.template)
    then NameConflict
    else if Blocked(s.filestores, SlotOf(profile, req.database)) then FilestoreConflict
    else if !CanPrepare(s.filestores, profile, req.database) then FilestoreFailed
    else ModuleNotInstalled
  }

  /** What a failed request may leave behind.  An exception that is no ProvisionerError escapes past
      the rollback: the database stays, with or without its contents. */
  ghost predicate Leftover(req: Request, profile: Profile, s: State, s': State, faults: set<Fault>) {
    && profile.source in s.databases
    && (req.database in s'.databases && req.database !in s.databases ==>
          var left, golden := s'.databases[req.database], s.databases[profile.source].contents;
          && (faults !! DROP_FAULTS + {Escaping} ==> Creating in faults || LoadRaised in faults)
          && left.owner == profile.owner
          && left.contents.marker in {None, golden.marker, Some(MarkerFor(req))}
          && (faults !! DROP_FAULTS ==> left.contents.marker in {None, golden.marker})
          && (faults !! {LoadExit, LoadRaised} ==>
                left.contents in {BLANK, golden, golden.(marker := Some(MarkerFor(req)))})
          && (faults !! DROP_FAULTS + {LoadExit, LoadRaised} ==>
                left.contents == BLANK || (Escaping in faults && left.contents == golden)))
    && (req.database !in s.databases && faults !! {Removing, Escaping} ==> s'.filestores == s.filestores)
    && (s'.filestores != s.filestores && req.database in s.databases ==>
          Matches(MarkerOf(s.databases, req.database), req.tenant, req.template))
  }

  ghost predicate Effect(config: Config, req: Request, s: State, r: Reply, s': State, faults: set<Fault>) {
    && (r == Ready || r.Failed?)
    && (r == Ready ==> ReadyEffect(config, req, s, s'))
    && (r.Failed? && Gate(config, req).Some? ==> s' == s && r.error == Gate(config, req).value)
    && (Gate(config, req).None? && !OdooOf(s.databases, config.profiles[req.template].source) ==> r.Failed? && s' == s)
    && (Gate(config, req).None? ==>
          var profile := config.profiles[req.template];
          && Confines(req, profile, s, s')
          && (req.database in s.databases ==> s'.databases == s.databases)
          && (Exists(s.filestores, SlotOf(profile, req.database)) ==> s'.filestores == s.filestores)
          && (r.Failed? && s' != s ==> Leftover(req, profile, s, s', faults)))
    && (faults == {} && Eligible(config, req, s) ==> r == Ready)
    && (faults == {} && r.Failed? && req.database !in s.databases ==> s' == s)
    && (faults == {} && r.Failed? && Gate(config, req).None? ==>
          r.error == Reason(config.profiles[req.template], req, s))
    && (faults == {} && Gate(config, req).None? && req.database in s.databases
        && OdooOf(s.databases, config.profiles[req.template].source) ==>
          (r == Failed(NameConflict) <==> !Matches(MarkerOf(s.databases, req.database), req.tenant, req.template)))
  }

  /** What a trial request may do beyond a provisioning: withdraw the database and filestore, which
      then carried the request's tenant and template. */
  ghost predicate TrialEffect(config: Config, req: Request, s: State, r: Reply, s': State, faults: set<Fault>) {
    && (r == Ready || r.Failed?)
    && (r == Ready ==> ReadyEffect(config, req, s, s'))
    && (req.environment != Trial ==> Effect(config, req, s, r, s', faults))
    && (Gate(config, req).Some? ==> s' == s && r == Failed(Gate(config, req).value))
    && (Gate(config, req).None? && !OdooOf(s.databases, config.profiles[req.template].source) ==> r.Failed? && s' == s)
    && (Gate(config, req).None? ==>
          var profile := config.profiles[req.template];
          && Confines(req, profile, s, s')
          && (req.database in s.databases && s' != s ==>
                && Matches(MarkerOf(s.databases, req.database), req.tenant, req.template)
                && (req.database in s'.databases ==> s'.databases == s.databases))
          && (req.database in s'.databases && req.database !in s.databases ==>
                && profile.source in s.databases
                && MarkerOf(s'.databases, req.database) in
                     {None, s.databases[profile.source].contents.marker, Some(MarkerFor(req))}))
    && (r.Failed? && faults == {} && Vacant(config, req, s) ==> s' == s)
    && (req.environment == Trial && r.Failed? && faults == {} && Eligible(config, req, s) ==>
          var slot := SlotOf(config.profiles[req.template], req.database);
          (slot in s.filestores ==> s.filestores[slot].Folder?) ==>
            s' == State(s.databases - {req.database}, s.filestores - {slot}))
  }

  /** Neither the database nor anything at its filestore path is there. */
  predicate Vacant(config: Config, req: Request, s: State) {
    && req.database !in s.databases
    && req.template in config.profiles && SlotOf(config.profiles[req.template], req.database) !in s.filestores
  }

  /** A clone is the golden contents under the profile's owner; a failed one leaves a database only when
      createdb or pg_restore raised, dropdb did not work, or an exception escaped. */
  ghost predicate Cloned(req: Request, profile: Profile, d: map<Name, Database>, error: Option<Error>,
                         d': map<Name, Database>, faults: set<Fault>)
    requires profile.source in d
  {
    var golden, t := d[profile.source].contents, req.database;
    && d' - {t} == d - {t}
    && (error.None? ==> d' == d[t := Database(profile.owner, golden)])
    && (error.Some? && t in d' ==>
          && d'[t].owner == profile.owner && d'[t].contents.marker in {None, golden.marker}
          && (faults !! {LoadExit, LoadRaised} ==>
                d'[t].contents == BLANK || (Escaping in faults && d'[t].contents == golden))
          && (faults !! DROP_FAULTS + {Escaping} ==> Creating in faults || LoadRaised in faults))
    && (error == Some(Internal) ==> Escaping in faults)
    && (faults !! {Dumping, Creating, LoadExit, LoadRaised, Escaping} ==> error.None?)
  }

  lemma ReadyKeeps(config: Config, req: Request, s: State, s': State)
    requires ReadyEffect(config, req, s, s')
    ensures var profile := config.profiles[req.template];
      && Confines(req, profile, s, s')
      && (req.database in s.databases ==> s'.databases == s.databases)
      && (Exists(s.filestores, SlotOf(profile, req.database)) ==> s'.filestores == s.filestores)
  {
    var slot := SlotOf(config.profiles[req.template], req.database);
    if req.database in s.databases { assert s.databases[req.database := s.databases[req.database]] == s.databases; }
    if slot in s.filestores { assert s.filestores[slot := s.filestores[slot]] == s.filestores; }
  }

  /** A failure on an absent name that leaves what it may keeps the promises. */
  lemma FailureKeeps(config: Config, req: Request, s: State, e: Error, s': State, faults: set<Fault>)
    requires Gate(config, req).None? && req.database !in s.databases
    requires OdooOf(s.databases, config.profiles[req.template].source)
    requires var profile := config.profiles[req.template];
      && Confines(req, profile, s, s') && Leftover(req, profile, s, s', faults)
      && (Exists(s.filestores, SlotOf(profile, req.database)) ==> s'.filestores == s.filestores)
      && (faults == {} ==> !Eligible(config, req, s) && s' == s && e == Reason(profile, req, s))
    ensures Effect(config, req, s, Failed(e), s', faults)
  {
    hide Confines, Leftover, Eligible, Reason, Exists, ReadyEffect;
  }

  datatype Preparation = Done(created: bool) | Refused(error: Error)

  class ProvisioningEngine {
    const node: Node
    const config: Config

    constructor (node: Node, config: Config)
      ensures this.node == node && this.config == config
    {
      this.node := node;
      this.config := config;
    }

    /** An OSError outside the engine's own exception family. */
    method Escape() returns (escapes: bool)
      modifies node`faults
      ensures node.faults == old(node.faults) + if escapes then {Escaping} else {}
    {
      escapes := *;
      if escapes { node.faults := node.faults + {Escaping}; }
    }

    /** _prepare_filestore; looking at the target, before or after the copy, may raise. */
    method PrepareFilestore(req: Request, profile: Profile) returns (r: Preparation)
      modifies node`filestores, node`faults
      ensures old(node.faults) <= node.faults <= old(node.faults) + {Copying, Owning, Removing, Escaping}
      ensures var fs, fs', slot := old(node.filestores), node.filestores, SlotOf(profile, req.database);
        && fs' - {slot} == fs - {slot}
        && (Exists(fs, slot) ==> fs' == fs)
        && (r.Done? ==>
              && CanPrepare(fs, profile, req.database)
              && fs' == fs[slot := PreparedEntry(fs, profile, req.database)] && r.created == (slot !in fs))
        && (r.Done? && slot !in fs ==>
              && slot in fs' && fs'[slot].Folder? && fs'[slot].user == profile.user && !fs'[slot].links
              && fs'[slot].files ==
                   var golden := Tenant(profile.root, profile.source);
                   if golden !in fs then map[] else
                   match fs[golden]
                   case Folder(files, _, _) => files
                   case Link(ToFolder(files)) => files
                   case _ => map[])
        && (r.Refused? ==> r.error in {FilestoreConflict, FilestoreFailed, Internal})
        && (r == Refused(Internal) ==> Escaping in node.faults)
        && (r.Refused? && node.faults !! {Removing, Escaping} ==> fs' == fs)
        && (r.Refused? && Escaping !in node.faults ==>
              r.error == if slot in fs && (fs[slot].Plain? || (fs[slot].Link? && fs[slot].target.ToFile?))
                         then FilestoreConflict else FilestoreFailed)
        && (node.faults !! {Copying, Owning, Removing, Escaping} && CanPrepare(fs, profile, req.database) ==> r.Done?)
    {
      var source, target := SlotOf(profile, profile.source), SlotOf(profile, req.database);
      ghost var fs := node.filestores;
      var escapes := Escape();
      if escapes { return Refused(Internal); }
      if Exists(node.filestores, target) {
        if !IsFolder(node.filestores, target) { return Refused(FilestoreConflict); }
        assert fs[target := fs[target]] == fs;
        return Done(false);
      }
      if !IsFolder(node.filestores, source) && !profile.allowEmpty { return Refused(FilestoreFailed); }
      var files := if IsFolder(node.filestores, source) then FilesOf(node.filestores, source) else map[];
      var ok := node.MakeFolder(target, files);
      if ok { ok := node.Chown(target, profile.user); }
      if ok { return Done(true); }
      escapes := Escape();
      if escapes { return Refused(Internal); }
      if Exists(node.filestores, target) { var _ := node.RemoveTree(target); }
      assert Removing !in node.faults ==> node.filestores == fs;
      return Refused(FilestoreFailed);
    }

    /** The body of the temporary directory's block. */
    method CloneInWorkspace(req: Request, profile: Profile) returns (error: Option<Error>)
      requires req.database !in node.databases && profile.source in node.databases
      modifies node`databases, node`faults
      ensures old(node.faults) <= node.faults
        <= old(node.faults) + DROP_FAULTS + {Dumping, Creating, LoadExit, LoadRaised, Escaping}
      ensures Cloned(req, profile, old(node.databases), error, node.databases, node.faults)
    {
      var dumped := node.Dump(profile.source);
      if dumped.Raised? { return Some(DumpFailed); }
      var created := node.Create(req.database, profile.owner);
      if !created.Success? { return Some(if created.Unavailable? then CommandUnavailable else CreateFailed); }
      // the dump file is opened again
      var escapes := Escape();
      if escapes { return Some(Internal); }
      var loaded := node.Load(req.database, dumped.value);
      if loaded.BadCode? {
        var _ := node.Drop(req.database);
        return Some(LoadFailed);
      }
      if loaded.Unavailable? { return Some(CommandUnavailable); }
      return None;
    }

    /** _clone_database: making, filling and closing the temporary directory. */
    method CloneDatabase(req: Request, profile: Profile) returns (error: Option<Error>)
      requires req.database !in node.databases && profile.source in node.databases
      modifies node`databases, node`faults
      ensures old(node.faults) <= node.faults
        <= old(node.faults) + DROP_FAULTS + {Dumping, Creating, LoadExit, LoadRaised, Escaping}
      ensures Cloned(req, profile, old(node.databases), error, node.databases, node.faults)
    {
      var escapes := Escape();
      if escapes { return Some(Internal); }
      error := CloneInWorkspace(req, profile);
      escapes := Escape();
      if escapes { return Some(Internal); }
    }

    /** What follows the clone of an absent database. */
    method FillDatabase(req: Request, profile: Profile) returns (error: Option<Error>, filestoreCreated: bool)
      requires req.database in node.databases && req.database != profile.source
      modifies node
      ensures old(node.faults) <= node.faults
        <= old(node.faults) + {Copying, Owning, Removing, Escaping, Marking, Reading}
      ensures error == Some(Internal) ==> Escaping in node.faults && node.databases == old(node.databases)
      ensures var fs, fs', slot := old(node.filestores), node.filestores, SlotOf(profile, req.database);
        && fs' - {slot} == fs - {slot}
        && (Exists(fs, slot) ==> fs' == fs)
        && (filestoreCreated ==> slot !in fs && slot in fs' && fs'[slot].Folder?)
        && (!filestoreCreated && node.faults !! {Removing, Escaping} && error.Some? ==> fs' == fs)
        && (error.None? ==>
              && CanPrepare(fs, profile, req.database)
              && fs' == fs[slot := PreparedEntry(fs, profile, req.database)])
      ensures var d, d', t := old(node.databases), node.databases, req.database;
        && (d' == d || d' == d[t := WithMarker(d[t], MarkerFor(req))])
        && (error.None? ==>
              d' == d[t := WithMarker(d[t], MarkerFor(req))] && OdooOf(d, t) && HasModules(d, t, req.modules))
      ensures node.faults == {} && CanPrepare(old(node.filestores), profile, req.database)
        && OdooOf(old(node.databases), req.database) && HasModules(old(node.databases), req.database, req.modules)
        ==> error.None?
      ensures node.faults == {} && OdooOf(old(node.databases), req.database) && error.Some? ==>
        error.value == if Blocked(old(node.filestores), SlotOf(profile, req.database)) then FilestoreConflict
                       else if !CanPrepare(old(node.filestores), profile, req.database) then FilestoreFailed
                       else ModuleNotInstalled
    {
      filestoreCreated := false;
      var prepared := PrepareFilestore(req, profile);
      if prepared.Refused? { return Some(prepared.error), false; }
      filestoreCreated := prepared.created;
      var marked := node.WriteMarker(req.database, MarkerFor(req));
      if !marked { return Some(MarkerFailed), filestoreCreated; }
      var odoo := node.SourceIsOdoo(req.database);
      if odoo != Value(true) {
        return Some(if odoo.Raised? then CommandUnavailable else SchemaInvalid), filestoreCreated;
      }
      var installed := node.ValidateModules(req.database, req.modules);
      if !installed { return Some(ModuleNotInstalled), filestoreCreated; }
      return None, filestoreCreated;
    }

    /** The branch for a database that is already there. */
    method Replay(req: Request, profile: Profile) returns (r: Reply)
      requires Gate(config, req).None? && profile == config.profiles[req.template]
      requires req.database in node.databases && OdooOf(node.databases, profile.source) && node.faults == {}
      modifies node
      ensures Effect(config, req, old(node.Snapshot()), r, node.Snapshot(), node.faults)
    {
      var marker := node.ReadMarker(req.database);
      if marker.Raised? { return Failed(CommandUnavailable); }
      if !Matches(marker.value, req.tenant, req.template) { return Failed(NameConflict); }
      var prepared := PrepareFilestore(req, profile);
      if prepared.Refused? { return Failed(prepared.error); }
      var installed := node.ValidateModules(req.database, req.modules);
      if !installed { return Failed(ModuleNotInstalled); }
      assert old(node.databases)[req.database := old(node.databases)[req.database]] == node.databases;
      return Ready;
    }

    /** The body of the try block, with the rollback flags. */
    method Build(req: Request, profile: Profile)
      returns (error: Option<Error>, databaseCreated: bool, filestoreCreated: bool)
      requires Gate(config, req).None? && profile == config.profiles[req.template]
      requires req.database !in node.databases && OdooOf(node.databases, profile.source) && node.faults == {}
      modifies node
      ensures error.None? ==> ReadyEffect(config, req, old(node.Snapshot()), node.Snapshot())
      ensures node.faults == {} && Eligible(config, req, old(node.Snapshot())) ==> error.None?
      ensures node.faults == {} && error.Some? ==> error.value == Reason(profile, req, old(node.Snapshot()))
      ensures error == Some(Internal) ==> Escaping in node.faults
      ensures var d, d', t := old(node.databases), node.databases, req.database;
        if databaseCreated then
          var copy := Database(profile.owner, d[profile.source].contents);
          d' == d[t := copy] || d' == d[t := WithMarker(copy, MarkerFor(req))]
        else error.Some? && Cloned(req, profile, d, error, d', node.faults)
      ensures error == Some(Internal) && databaseCreated ==>
        node.databases[req.database].contents == old(node.databases)[profile.source].contents
      ensures var fs, fs', slot := old(node.filestores), node.filestores, SlotOf(profile, req.database);
        && fs' - {slot} == fs - {slot}
        && (Exists(fs, slot) ==> fs' == fs)
        && (!databaseCreated ==> fs' == fs && !filestoreCreated)
        && (filestoreCreated ==> slot !in fs && slot in fs' && fs'[slot].Folder?)
        && (!filestoreCreated && node.faults !! {Removing, Escaping} && error.Some? ==> fs' == fs)
    {
      databaseCreated, filestoreCreated := false, false;
      error := CloneDatabase(req, profile);
      if error.Some? { return; }
      databaseCreated := true;
      error, filestoreCreated := FillDatabase(req, profile);
    }

    /** The branch for an absent database, with its rollback. */
    method Materialise(req: Request, profile: Profile) returns (r: Reply)
      requires Gate(config, req).None? && profile == config.profiles[req.template]
      requires req.database !in node.databases && OdooOf(node.databases, profile.source) && node.faults == {}
      modifies node
      ensures Effect(config, req, old(node.Snapshot()), r, node.Snapshot(), node.faults)
    {
      ghost var before := node.Snapshot();
      hide Eligible, Reason, ReadyEffect, CanPrepare, HasModules, Matches, IsFolder;
      var error, databaseCreated, filestoreCreated := Build(req, profile);
      if error.None? {
        ReadyKeeps(config, req, before, node.Snapshot());
        return Ready;
      }
      hide Effect;
      if error == Some(Internal) {
        FailureKeeps(config, req, before, Internal, node.Snapshot(), node.faults);
        return Failed(Internal);
      }
      var raised := Withdraw(req, profile, filestoreCreated, databaseCreated);
      assert node.faults !! {Removing, Escaping} ==> node.filestores == before.filestores;
      r := Failed(if raised then CommandUnavailable else error.value);
      FailureKeeps(config, req, before, r.error, node.Snapshot(), node.faults);
    }

    /** The exception handler of provision. */
    method Withdraw(req: Request, profile: Profile, filestoreCreated: bool, databaseCreated: bool)
      returns (raised: bool)
      modifies node
      ensures old(node.faults) <= node.faults <= old(node.faults) + DROP_FAULTS + {Removing}
      ensures raised ==> DropRaised in node.faults
      ensures var d, d', t := old(node.databases), node.databases, req.database;
        && (d' == d || d' == d - {t})
        && (!databaseCreated ==> d' == d)
        && (databaseCreated && node.faults !! DROP_FAULTS ==> d' == d - {t})
      ensures var fs, fs', slot := old(node.filestores), node.filestores, SlotOf(profile, req.database);
        && fs' - {slot} == fs - {slot}
        && (!filestoreCreated ==> fs' == fs)
        && (filestoreCreated && slot in fs && fs[slot].Folder? && Removing !in node.faults ==> fs' == fs - {slot})
    {
      if filestoreCreated {
        var _ := node.RemoveTree(SlotOf(profile, req.database));
      }
      if databaseCreated {
        var dropped := node.Drop(req.database);
        return dropped.Unavailable?;
      }
      return false;
    }

    /** provision */
    method Provision(req: Request) returns (r: Reply)
      modifies node
      ensures Effect(config, req, old(node.Snapshot()), r, node.Snapshot(), node.faults)
    {
      node.faults := {};
      var gate := Gate(config, req);
      if gate.Some? { return Failed(gate.value); }
      var profile := config.profiles[req.template];
      var source := node.DatabaseExists(profile.source);
      if source != Value(true) {
        return Failed(if source.Raised? then CommandUnavailable else SourceMissing);
      }
      var odoo := node.SourceIsOdoo(profile.source);
      if odoo != Value(true) {
        return Failed(if odoo.Raised? then CommandUnavailable else SourceNotOdoo);
      }
      var present := node.DatabaseExists(req.database);
      if present.Raised? { return Failed(CommandUnavailable); }
      if present.value { r := Replay(req, profile); } else { r := Materialise(req, profile); }
    }
  }

  /** RuntimeLifecycle.ensure as the engine sees it. */
  datatype Activation = Activated | Declined | Crashed

  /** SafeRuntimeProvisioningEngine */
  class SafeProvisioningEngine {
    const base: ProvisioningEngine
    const runtimeEnabled: bool

    constructor (base: ProvisioningEngine, runtimeEnabled: bool)
      ensures this.base == base && this.runtimeEnabled == runtimeEnabled
    {
      this.base := base;
      this.runtimeEnabled := runtimeEnabled;
    }

    /** _rollback_trial_data */
    method Rollback(req: Request, profile: Profile) returns (error: Option<Error>)
      modifies base.node
      ensures old(base.node.faults) <= base.node.faults
      ensures var s, s', slot := old(base.node.Snapshot()), base.node.Snapshot(), SlotOf(profile, req.database);
        && Confines(req, profile, s, s')
        && (s' != s ==> Matches(MarkerOf(s.databases, req.database), req.tenant, req.template))
        && (req.database in s'.databases ==> s'.databases == s.databases)
        && (error.None? ==> req.database !in s'.databases && (slot in s'.filestores ==> !Exists(s'.filestores, slot)))
        && (base.node.faults == {} && slot in s.filestores && s.filestores[slot].Folder?
            && Matches(MarkerOf(s.databases, req.database), req.tenant, req.template) ==>
              s' == State(s.databases - {req.database}, s.filestores - {slot}))
    {
      var node, slot := base.node, SlotOf(profile, req.database);
      var present := node.DatabaseExists(req.database);
      if present.Raised? { return Some(CommandUnavailable); }
      var marker: Answer<Option<Marker>> := Value(None);
      if present.value { marker := node.ReadMarker(req.database); }
      if marker.Raised? { return Some(CommandUnavailable); }
      if !Matches(marker.value, req.tenant, req.template) { return Some(RollbackMismatch); }
      if slot in node.filestores && node.filestores[slot].Link? { return Some(RollbackMismatch); }
      var rollbackFailed := false;
      if Exists(node.filestores, slot) {
        var removed := node.RemoveTree(slot);
        rollbackFailed := !removed;
      }
      var dropped := node.Drop(req.database);
      if dropped.Unavailable? {
        rollbackFailed := true;
      } else {
        var still := node.DatabaseExists(req.database);
        if still != Value(false) { rollbackFailed := true; }
      }
      return if rollbackFailed then Some(RollbackFailed) else None;
    }

    /** provision */
    method Provision(req: Request) returns (r: Reply)
      modifies base.node
      ensures TrialEffect(base.config, req, old(base.node.Snapshot()), r, base.node.Snapshot(), base.node.faults)
      ensures req.environment != Trial ==>
        Effect(base.config, req, old(base.node.Snapshot()), r, base.node.Snapshot(), base.node.faults)
    {
      ghost var s := base.node.Snapshot();
      r := base.Provision(req);
      assert r == Ready && req.database in s.databases ==> base.node.databases == s.databases;
      if r.Failed? || req.environment != Trial { return; }
      var profile := base.config.profiles[req.template];
      var activation: Activation := *;
      if runtimeEnabled && activation.Activated? { return; }
      if runtimeEnabled && activation.Crashed? {
        base.node.faults := base.node.faults + {Escaping};
        return Failed(Internal);
      }
      var error := Rollback(req, profile);
      return Failed(if error.Some? then error.value else if runtimeEnabled then RuntimeFailed else RuntimeDisabled);
    }
  }

  // -- what a reply means -----------------------------------------------------------------------

  /** A ready tenant, whichever engine served it: the request was allowed here, the golden database is an Odoo
      database, and the tenant's own is the one that was there under its tenant and template, or a new copy
      of the golden one under exactly its marker; either way it has the modules. */
  lemma ReadyMeans(config: Config, req: Request, s: State, s': State, faults: set<Fault>)
    requires Effect(config, req, s, Ready, s', faults) || TrialEffect(config, req, s, Ready, s', faults)
    ensures config.enabled && req.template in config.profiles
    ensures req.environment == Test || (req.environment == Trial && config.phase == TrialEnabled)
    ensures var p, t := config.profiles[req.template], req.database;
      && p.prefix + "_" <= t && t != p.source && req.modules <= p.allowed
      && p.source in s.databases && s.databases[p.source].contents.odoo
      && t in s'.databases && req.modules <= s'.databases[t].contents.modules
      && (t in s.databases ==>
            && s'.databases == s.databases
            && exists id :: s.databases[t].contents.marker == Some(Marker(req.tenant, req.template, id)))
      && (t !in s.databases ==>
            s'.databases == s.databases[t := Database(p.owner, s.databases[p.source].contents.(
              marker := Some(Marker(req.tenant, req.template, req.operation))))])
  {
    var t := req.database;
    if t in s.databases {
      var marker := s.databases[t].contents.marker.value;
      assert s.databases[t].contents.marker == Some(Marker(req.tenant, req.template, marker.operation));
      assert s.databases[t := s.databases[t]] == s.databases;
    }
  }

  /** And its filestore: a folder that was there is kept as it was; a new one holds exactly the files of the
      golden folder, or none when there is no golden folder and the profile allows that, belongs to the
      profile's user and has no links.  No other filestore changes. */
  lemma ReadyFilestore(config: Config, req: Request, s: State, s': State, faults: set<Fault>)
    requires Effect(config, req, s, Ready, s', faults) || TrialEffect(config, req, s, Ready, s', faults)
    ensures req.template in config.profiles
    ensures var p := config.profiles[req.template];
      var slot, golden, fs := Tenant(p.root, req.database), Tenant(p.root, p.source), s.filestores;
      && (slot in fs ==> s'.filestores == fs && (fs[slot].Folder? || (fs[slot].Link? && fs[slot].target.ToFolder?)))
      && (slot !in fs && golden in fs && fs[golden].Folder? ==>
            s'.filestores == fs[slot := Folder(fs[golden].files, p.user, false)])
      && (slot !in fs && golden in fs && fs[golden].Link? && fs[golden].target.ToFolder? ==>
            s'.filestores == fs[slot := Folder(fs[golden].target.files, p.user, false)])
      && (slot !in fs && (golden !in fs || fs[golden].Plain? || (fs[golden].Link? && !fs[golden].target.ToFolder?)) ==>
            p.allowEmpty && s'.filestores == fs[slot := Folder(map[], p.user, false)])
  {
    var p := config.profiles[req.template];
    var slot := Tenant(p.root, req.database);
    if slot in s.filestores { assert s.filestores[slot := s.filestores[slot]] == s.filestores; }
  }

  /** Without faults that is exactly when a request is answered ready. */
  lemma ReadyIff(config: Config, req: Request, s: State, r: Reply, s': State)
    requires Effect(config, req, s, r, s', {})
    ensures r == Ready <==>
      && config.enabled && req.template in config.profiles
      && (req.environment == Test || (req.environment == Trial && config.phase == TrialEnabled))
      && var p, t := config.profiles[req.template], req.database;
      var slot, golden, fs := Tenant(p.root, t), Tenant(p.root, p.source), s.filestores;
      && p.prefix + "_" <= t && t != p.source && req.modules <= p.allowed
      && p.source in s.databases && s.databases[p.source].contents.odoo
      && (if t in s.databases then
            && (exists id :: s.databases[t].contents.marker == Some(Marker(req.tenant, req.template, id)))
            && req.modules <= s.databases[t].contents.modules
          else req.modules <= s.databases[p.source].contents.modules)
      && (if slot in fs then fs[slot].Folder? || (fs[slot].Link? && fs[slot].target.ToFolder?)
          else
            || p.allowEmpty
            || (golden in fs && (fs[golden].Folder? || (fs[golden].Link? && fs[golden].target.ToFolder?))))
  {
    if r == Ready {
      ReadyMeans(config, req, s, s', {});
      ReadyFilestore(config, req, s, s', {});
      hide Effect;
    }
  }

  /** And the reason for turning down a request that may run here: no golden database, one that is no Odoo database,
      a database of that name under another marker or none, something else at its filestore's name, no folder to
      copy and none allowed to be empty, or modules that are not installed; in this order. */
  lemma TurnedDownMeans(config: Config, req: Request, s: State, e: Error, s': State)
    requires Effect(config, req, s, Failed(e), s', {}) && Gate(config, req).None?
    ensures req.template in config.profiles && s'.databases == s.databases
    ensures var p, t := config.profiles[req.template], req.database;
      var slot, golden, fs := Tenant(p.root, t), Tenant(p.root, p.source), s.filestores;
      if p.source !in s.databases then e == SourceMissing && s' == s
      else if !s.databases[p.source].contents.odoo then e == SourceNotOdoo && s' == s
      else if t in s.databases
              && !(exists id :: s.databases[t].contents.marker == Some(Marker(req.tenant, req.template, id)))
      then e == NameConflict
      else if slot in fs && (fs[slot].Plain? || (fs[slot].Link? && fs[slot].target.ToFile?)) then e == FilestoreConflict
      else if slot in fs && fs[slot].Link? && fs[slot].target.Missing? then e == FilestoreFailed
      else if slot !in fs && !p.allowEmpty
              && !(golden in fs && (fs[golden].Folder? || (fs[golden].Link? && fs[golden].target.ToFolder?)))
      then e == FilestoreFailed
      else
        && e == ModuleNotInstalled
        && !(req.modules <= s.databases[if t in s.databases then t else p.source].contents.modules)
  {
    var p, t := config.profiles[req.template], req.database;
    if t in s.databases && s.databases[t].contents.marker.Some? {
      var marker := s.databases[t].contents.marker.value;
      assert marker == Marker(marker.tenant, marker.template, marker.operation);
    }
    ReadyIff(config, req, s, Failed(e), s');
  }

  /** A request that may not run here changes nothing, and the first reason is the answer. */
  lemma BlockedMeans(config: Config, req: Request, s: State, r: Reply, s': State, faults: set<Fault>)
    requires Effect(config, req, s, r, s', faults)
    ensures !config.enabled ==> s' == s && r == Failed(Disabled)
    ensures (config.enabled
      && (req.environment == Production || (req.environment == Trial && config.phase == TestOnly))) ==>
      s' == s && r == Failed(EnvironmentBlocked)
    ensures (config.enabled
      && (req.environment == Test || (req.environment == Trial && config.phase == TrialEnabled))) ==>
      if req.template !in config.profiles then s' == s && r == Failed(ProfileMissing)
      else
        var p := config.profiles[req.template];
        && (!(p.prefix + "_" <= req.database) ==> s' == s && r == Failed(PrefixMismatch))
        && (p.prefix + "_" <= req.database && !(req.modules <= p.allowed) ==> s' == s && r == Failed(ModuleNotAllowed))
        && (p.prefix + "_" <= req.database && req.modules <= p.allowed && req.database == p.source ==>
              s' == s && r == Failed(SourceConflict))
  {
  }

  /** What only the trial engine does to a database that was there: when it cannot activate the runtime it
      withdraws the request's own database, whose marker names the tenant and template, whole; and without
      faults it always does, together with the filestore. */
  lemma WithdrawalMeans(config: Config, req: Request, s: State, r: Reply, s': State, faults: set<Fault>)
    requires TrialEffect(config, req, s, r, s', faults) && req.database in s.databases
    ensures s'.databases != s.databases ==>
      && req.environment == Trial && config.phase == TrialEnabled && r.Failed?
      && req.database !in s'.databases && s'.databases - {req.database} == s.databases - {req.database}
      && exists id :: s.databases[req.database].contents.marker == Some(Marker(req.tenant, req.template, id))
    ensures faults == {} && req.environment == Trial && r.Failed? && Eligible(config, req, s) ==>
      var slot := Tenant(config.profiles[req.template].root, req.database);
      slot in s.filestores && s.filestores[slot].Folder? ==>
        s'.databases == s.databases - {req.database} && s'.filestores == s.filestores - {slot}
  {
    if s'.databases != s.databases {
      var marker := s.databases[req.database].contents.marker.value;
      assert s.databases[req.database].contents.marker == Some(Marker(req.tenant, req.template, marker.operation));
      assert r != Ready by { assert s.databases[req.database := s.databases[req.database]] == s.databases; }
    }
  }
}
