/** CleanupEngine: quarantine the filestore, drop the database, remove the quarantine. */
module Cleanup {
  import opened Common
  import opened NodeState

  datatype Request = Request(operation: Id, tenant: Id, environment: Environment, template: Id,
                             provisioning: Id, database: Name)

  function Gate(config: Config, req: Request): Option<Error> {
    if !config.enabled then Some(Disabled)
    else if req.environment == Trial && config.phase != TrialEnabled then Some(EnvironmentBlocked)
    else if req.environment == Production then Some(EnvironmentBlocked)
    else if req.template !in config.profiles then Some(ProfileMissing)
    else
      var profile := config.profiles[req.template];
      if req.database == profile.source then Some(SourceConflict)
      else if !HasPrefix(req.database, profile.prefix) then Some(PrefixMismatch)
      else None
  }

  function Expected(req: Request): Marker { Marker(req.tenant, req.template, req.provisioning) }

  function SlotOf(profile: Profile, req: Request): Slot { Tenant(profile.root, req.database) }

  function QuarantineOf(profile: Profile, req: Request): Slot { Quarantine(profile.root, req.operation) }

  /** The database is the request's own, its filestore is sound and the quarantine name is free. */
  predicate Eligible(config: Config, req: Request, s: State) {
    && Gate(config, req).None?
    && var profile := config.profiles[req.template];
    && Owned(s.databases, req.database, profile.owner, Expected(req))
    && ValidFilestore(s.filestores, SlotOf(profile, req), profile.user)
    && QuarantineOf(profile, req) !in s.filestores
  }

  /** Why a request that may run here is turned down when every command works. */
  function Reason(profile: Profile, req: Request, s: State): Error {
    if req.database !in s.databases then DatabaseMissing
    else if s.databases[req.database].owner != profile.owner then OwnerMismatch
    else if MarkerOf(s.databases, req.database) != Some(Expected(req)) then MarkerMismatch
    else if !ValidFilestore(s.filestores, SlotOf(profile, req), profile.user) then FilestoreInvalid
    else QuarantineConflict
  }

  /** Faults after which the engine does not put everything back. */
  const UNSAFE := {DropRaised, DropSilent, DropExit, Inventory, Removing}

  ghost predicate Effect(config: Config, req: Request, s: State, r: Reply, s': State, faults: set<Fault>) {
    && (r == Cleaned || r.Failed?)
    && (r == Cleaned ==>
          && Eligible(config, req, s)
          && var profile := config.profiles[req.template];
          && s' == State(s.databases - {req.database}, s.filestores - {SlotOf(profile, req)}))
    && (s' != s ==>
          && Eligible(config, req, s)
          && var profile, d, fs, fs' := config.profiles[req.template], req.database, s.filestores, s'.filestores;
          var slot, quarantine := SlotOf(profile, req), QuarantineOf(profile, req);
          && (s'.databases == s.databases || s'.databases == s.databases - {d})
          && fs' - {slot, quarantine} == fs - {slot, quarantine}
          && (slot in fs' ==> fs' == fs)
          && (r.Failed? && slot !in fs' && Removing !in faults ==>
                quarantine in fs' && fs'[quarantine] == fs[slot]))
    && (r.Failed? && faults !! UNSAFE ==> s' == s)
    && (r.Failed? && faults !! UNSAFE - {DropExit} && Renaming !in faults ==> s'.filestores == s.filestores)
    && (faults == {} && Eligible(config, req, s) ==> r == Cleaned)
    && (r in {Failed(OwnerMismatch), Failed(MarkerMismatch)} ==>
          && req.database in s.databases && req.template in config.profiles
          && (s.databases[req.database].owner == config.profiles[req.template].owner <==> r == Failed(MarkerMismatch)))
    && (r == Failed(MarkerMismatch) ==>
          Reading in faults || MarkerOf(s.databases, req.database) != Some(Expected(req)))
    && (faults == {} && Gate(config, req).None? && req.database in s.databases ==>
          var owned := s.databases[req.database].owner == config.profiles[req.template].owner;
          && (r == Failed(OwnerMismatch) <==> !owned)
          && (r == Failed(MarkerMismatch) <==> owned && MarkerOf(s.databases, req.database) != Some(Expected(req))))
    && (faults == {} && Gate(config, req).None? && r.Failed? ==>
          && s' == s && r.error == Reason(config.profiles[req.template], req, s))
  }

  class CleanupEngine {
    const node: Node
    const config: Config

    constructor (node: Node, config: Config)
      ensures this.node == node && this.config == config
    {
      this.node := node;
      this.config := config;
    }

    /** Moves the filestore away, drops the database, and moves the filestore back when that fails. */
    method DropQuarantined(req: Request, profile: Profile) returns (error: Option<Error>)
      requires SlotOf(profile, req) in node.filestores && QuarantineOf(profile, req) !in node.filestores
      modifies node
      ensures old(node.faults) <= node.faults <= old(node.faults) + DROP_FAULTS + {Inventory, Renaming}
      ensures node.databases == old(node.databases) || node.databases == old(node.databases - {req.database})
      ensures var fs, fs', slot, quarantine :=
        old(node.filestores), node.filestores, SlotOf(profile, req), QuarantineOf(profile, req);
        && (fs' == fs || fs' == Moved(fs, slot, quarantine))
        && (error.None? ==> req.database !in node.databases && fs' == Moved(fs, slot, quarantine))
        && (error.Some? && node.faults !! {DropRaised, DropSilent, Inventory, Renaming} ==> fs' == fs)
        && (error.Some? && node.faults !! DROP_FAULTS + {Inventory} ==>
           fs' == fs && node.databases == old(node.databases))
      ensures error.Some? ==> node.faults * (DROP_FAULTS + {Inventory, Renaming}) != {}
      ensures error.Some? ==> error.value !in {OwnerMismatch, MarkerMismatch}
    {
      var target, quarantine := SlotOf(profile, req), QuarantineOf(profile, req);
      ghost var fs := node.filestores;
      var moved := node.Rename(target, quarantine);
      if !moved { return Some(QuarantineFailed); }
      assert Moved(node.filestores, quarantine, target) == fs;
      var dropped := node.Drop(req.database);
      if dropped.Unavailable? { return Some(CommandUnavailable); }
      if dropped.BadCode? {
        var _ := node.Rename(quarantine, target);
        return Some(DropFailed);
      }
      var still := node.DatabaseExists(req.database);
      if still.Raised? { return Some(CommandUnavailable); }
      if still.value {
        var _ := node.Rename(quarantine, target);
        return Some(DropUnconfirmed);
      }
      return None;
    }

    /** cleanup */
    method Clean(req: Request) returns (r: Reply)
      modifies node
      ensures Effect(config, req, old(node.Snapshot()), r, node.Snapshot(), node.faults)
      ensures Gate(config, req).Some? ==> r == Failed(Gate(config, req).value)
    {
      node.faults := {};
      var gate := Gate(config, req);
      if gate.Some? { return Failed(gate.value); }
      var profile := config.profiles[req.template];
      var error := node.CheckOwned(req.database, profile.owner, Expected(req));
      if error.Some? { return Failed(error.value); }
      var target, quarantine := SlotOf(profile, req), QuarantineOf(profile, req);
      if !ValidFilestore(node.filestores, target, profile.user) { return Failed(FilestoreInvalid); }
      if quarantine in node.filestores { return Failed(QuarantineConflict); }
      ghost var fs := node.filestores;
      error := DropQuarantined(req, profile);
      if error.Some? { return Failed(error.value); }
      assert node.filestores - {quarantine} == fs - {target};
      var removed := node.RemoveTree(quarantine);
      assert node.filestores - {target, quarantine} == node.filestores - {quarantine} - {target};
      assert fs - {target, quarantine} == fs - {target} - {target};
      assert target !in node.filestores - {quarantine};
      assert !removed ==> Removing in node.faults;
      assert removed ==> node.filestores == fs - {target};
      if !removed { return Failed(RemoveFailed); }
      return Cleaned;
    }

    /** RuntimeCleanupEngine.cleanup: for a trial the same checks come first, then the runtime goes. */
    method CleanWithRuntime(req: Request, runtimeEnabled: bool) returns (r: Reply)
      modifies node
      ensures Effect(config, req, old(node.Snapshot()), r, node.Snapshot(), node.faults)
    {
      node.faults := {};
      if req.environment == Trial && runtimeEnabled {
        if req.template !in config.profiles { return Failed(ProfileMissing); }
        var profile := config.profiles[req.template];
        if req.database == profile.source { return Failed(SourceConflict); }
        if !HasPrefix(req.database, profile.prefix) { return Failed(PrefixMismatch); }
        var error := node.CheckOwned(req.database, profile.owner, Expected(req));
        if error.Some? { return Failed(error.value); }
        var runtimeFails := *;
        if runtimeFails {
          node.faults := node.faults + {Escaping};
          return Failed(RuntimeFailed);
        }
      }
      r := Clean(req);
    }
  }

  // -- what a reply means -----------------------------------------------------------------------

  /** A cleaned tenant: the request was allowed here, the database was owned by the profile's role and carried
      exactly the marker of the tenant's provisioning, its filestore was a real folder of the profile's user
      without links, and exactly these two are gone. */
  lemma CleanedMeans(config: Config, req: Request, s: State, s': State, faults: set<Fault>)
    requires Effect(config, req, s, Cleaned, s', faults)
    ensures config.enabled && req.template in config.profiles
    ensures req.environment == Test || (req.environment == Trial && config.phase == TrialEnabled)
    ensures var p, d := config.profiles[req.template], req.database;
      var slot, quarantine := Tenant(p.root, d), Slot.Quarantine(p.root, req.operation);
      && p.prefix + "_" <= d && d != p.source
      && d in s.databases && s.databases[d].owner == p.owner
      && s.databases[d].contents.marker == Some(Marker(req.tenant, req.template, req.provisioning))
      && slot in s.filestores && s.filestores[slot].Folder?
      && s.filestores[slot].user == p.user && !s.filestores[slot].links && quarantine !in s.filestores
      && s' == State(s.databases - {d}, s.filestores - {slot})
  {
  }

  /** Without faults that is exactly when a request is answered cleaned; everything else changes nothing. */
  lemma CleanedIff(config: Config, req: Request, s: State, r: Reply, s': State)
    requires Effect(config, req, s, r, s', {})
    ensures r == Cleaned <==>
      && config.enabled && req.template in config.profiles
      && (req.environment == Test || (req.environment == Trial && config.phase == TrialEnabled))
      && var p, d := config.profiles[req.template], req.database;
      var slot, quarantine := Tenant(p.root, d), Slot.Quarantine(p.root, req.operation);
      && p.prefix + "_" <= d && d != p.source
      && d in s.databases && s.databases[d].owner == p.owner
      && s.databases[d].contents.marker == Some(Marker(req.tenant, req.template, req.provisioning))
      && slot in s.filestores && s.filestores[slot].Folder?
      && s.filestores[slot].user == p.user && !s.filestores[slot].links && quarantine !in s.filestores
    ensures r != Cleaned ==> s' == s
  {
  }

  /** And the reason for turning down a request that may run here. */
  lemma TurnedDownMeans(config: Config, req: Request, s: State, e: Error, s': State)
    requires Effect(config, req, s, Failed(e), s', {}) && Gate(config, req).None?
    ensures req.template in config.profiles
    ensures var p, d := config.profiles[req.template], req.database;
      var slot := Tenant(p.root, d);
      if d !in s.databases then e == DatabaseMissing
      else if s.databases[d].owner != p.owner then e == OwnerMismatch
      else if s.databases[d].contents.marker != Some(Marker(req.tenant, req.template, req.provisioning))
      then e == MarkerMismatch
      else if !(slot in s.filestores && s.filestores[slot].Folder?
                && s.filestores[slot].user == p.user && !s.filestores[slot].links)
      then e == FilestoreInvalid
      else e == QuarantineConflict && Slot.Quarantine(p.root, req.operation) in s.filestores
  {
  }

  /** What a failed cleanup can leave: nothing changed unless dropdb, the inventory query or rmtree misbehaved;
      then the database is as it was or gone, and the filestore is in place, or in quarantine as it was unless
      its removal had begun. */
  lemma FailedCleanupMeans(config: Config, req: Request, s: State, e: Error, s': State, faults: set<Fault>)
    requires Effect(config, req, s, Failed(e), s', faults) && s' != s
    ensures req.template in config.profiles
    ensures !(faults !! {DropExit, DropRaised, DropSilent, Inventory, Removing})
    ensures var p, d := config.profiles[req.template], req.database;
      var slot, quarantine := Tenant(p.root, d), Slot.Quarantine(p.root, req.operation);
      && (s'.databases == s.databases || s'.databases == s.databases - {d})
      && s'.filestores - {slot, quarantine} == s.filestores - {slot, quarantine}
      && slot in s.filestores
      && (slot in s'.filestores ==> s'.filestores == s.filestores)
      && (slot !in s'.filestores && Removing !in faults ==>
            quarantine in s'.filestores && s'.filestores[quarantine] == s.filestores[slot])
  {
  }

  /** The answer to a request that may not run here. */
  lemma GateMeans(config: Config, req: Request)
    ensures var allowed := req.environment == Test || (req.environment == Trial && config.phase == TrialEnabled);
      && (!config.enabled ==> Gate(config, req) == Some(Disabled))
      && (config.enabled && !allowed ==> Gate(config, req) == Some(EnvironmentBlocked))
      && (config.enabled && allowed ==>
            if req.template !in config.profiles then Gate(config, req) == Some(ProfileMissing)
            else
              var p := config.profiles[req.template];
              && (req.database == p.source ==> Gate(config, req) == Some(SourceConflict))
              && (req.database != p.source && !(p.prefix + "_" <= req.database) ==>
                    Gate(config, req) == Some(PrefixMismatch))
              && (req.database != p.source && p.prefix + "_" <= req.database ==> Gate(config, req) == None))
  {
  }
}
