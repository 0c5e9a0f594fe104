/** The mutable state of one node and the commands the root-owned engines run on it.

    Every command has a nondeterministic outcome: it may answer, exit with a bad code, or raise, and
    what does not answer may still have taken effect.  `faults` names the kinds of commands that
    misbehaved during the present request. */
module NodeState {
  import opened Common
  import Filestore

  type Name = string
  type Id = nat
  type Role = nat
  type User = nat
  type Root = nat
  type Module = nat

  datatype Marker = Marker(tenant: Id, template: Id, operation: Id)

  /** What pg_dump writes and pg_restore reads, the marker table included. */
  datatype Contents = Contents(odoo: bool, modules: set<Module>, rows: nat, marker: Option<Marker>)

  const BLANK := Contents(false, {}, 0, None)

  datatype Database = Database(owner: Role, contents: Contents)

  /** Names below a filestore root; database names start with a letter, so the three kinds are disjoint. */
  datatype Slot =
    | Tenant(root: Root, name: Name)
    | Staging(root: Root, operation: Id)
    | Quarantine(root: Root, operation: Id)

  datatype Target = Missing | ToFile | ToFolder(files: Filestore.Files)

  /** `links` tells whether a symbolic link lies below the folder; `files` is what reading through them yields. */
  datatype Entry = Folder(files: Filestore.Files, user: User, links: bool) | Plain | Link(target: Target)

  datatype State = State(databases: map<Name, Database>, filestores: map<Slot, Entry>)

  datatype Environment = Test | Trial | Production
  datatype Phase = TestOnly | TrialEnabled

  datatype Profile = Profile(source: Name, prefix: string, owner: Role, root: Root, user: User,
                             allowed: set<Module>, allowEmpty: bool)

  datatype Config = Config(enabled: bool, phase: Phase, profiles: map<Id, Profile>)

  datatype Error =
    | Disabled | EnvironmentBlocked | ProfileMissing | PrefixMismatch | ModuleNotAllowed | SourceConflict
    | SourceMissing | SourceNotOdoo | NameConflict | CommandUnavailable | DumpFailed | CreateFailed | LoadFailed
    | MarkerFailed | SchemaInvalid | ModuleNotInstalled | FilestoreConflict | FilestoreFailed
    | DatabaseMissing | OwnerMismatch | MarkerMismatch | FilestoreInvalid | QuarantineConflict | QuarantineFailed
    | DropFailed | DropUnconfirmed | RemoveFailed | ArtifactsInvalid | StagingConflict | ArchiveRejected
    | RuntimeDisabled | RuntimeFailed | RollbackMismatch | RollbackFailed | WorkspaceConflict | BackupFailed | Internal

  datatype Reply = Ready | Cleaned | Prepared | Validated | Failed(error: Error)

  datatype Fault =
    | Inventory | Reading | Dumping | Creating | LoadExit | LoadRaised | Marking
    | DropExit | DropRaised | DropSilent | Copying | Owning | Renaming | Removing | Extracting | Escaping

  const DROP_FAULTS := {DropExit, DropRaised, DropSilent}

  datatype Answer<T> = Value(value: T) | Raised
  datatype Exit = Success | BadCode | Unavailable

  function HasPrefix(name: Name, prefix: string): bool { prefix + "_" <= name }

  /** Path.exists, which follows links. */
  predicate Exists(fs: map<Slot, Entry>, slot: Slot) {
    slot in fs && !(fs[slot].Link? && fs[slot].target.Missing?)
  }

  /** Path.is_dir, which follows links. */
  predicate IsFolder(fs: map<Slot, Entry>, slot: Slot) {
    slot in fs && (fs[slot].Folder? || (fs[slot].Link? && fs[slot].target.ToFolder?))
  }

  function FilesOf(fs: map<Slot, Entry>, slot: Slot): Filestore.Files {
    if slot !in fs then map[]
    else match fs[slot]
      case Folder(files, _, _) => files
      case Link(ToFolder(files)) => files
      case _ => map[]
  }

  function MarkerOf(databases: map<Name, Database>, n: Name): Option<Marker> {
    if n in databases then databases[n].contents.marker else None
  }

  predicate OdooOf(databases: map<Name, Database>, n: Name) { n in databases && databases[n].contents.odoo }

  predicate HasModule(databases: map<Name, Database>, n: Name, m: Module) {
    n in databases && m in databases[n].contents.modules
  }

  predicate Matches(marker: Option<Marker>, tenant: Id, template: Id) {
    marker.Some? && marker.value.tenant == tenant && marker.value.template == template
  }

  /** The database carries exactly the expected marker and owner. */
  predicate Owned(databases: map<Name, Database>, n: Name, owner: Role, expected: Marker) {
    n in databases && databases[n].owner == owner && databases[n].contents.marker == Some(expected)
  }

  /** A real folder of the expected user without symbolic links. */
  predicate ValidFilestore(fs: map<Slot, Entry>, slot: Slot, user: User) {
    slot in fs && fs[slot].Folder? && fs[slot].user == user && !fs[slot].links
  }

  class Node {
    var databases: map<Name, Database>
    var filestores: map<Slot, Entry>
    ghost var faults: set<Fault>

    function Snapshot(): State
      reads this
    {
      State(databases, filestores)
    }

    // -- queries ----------------------------------------------------------------------------

    /** _database_exists: a bad exit code raises too. */
    method DatabaseExists(n: Name) returns (r: Answer<bool>)
      modifies `faults
      ensures old(faults) <= faults <= old(faults) + {Inventory}
      ensures r.Value? ==> r.value == (n in databases) && faults == old(faults)
      ensures Inventory !in faults ==> r.Value?
    {
      var fails := *;
      if fails { faults := faults + {Inventory}; return Raised; }
      return Value(n in databases);
    }

    method DatabaseOwner(n: Name) returns (r: Answer<Option<Role>>)
      modifies `faults
      ensures old(faults) <= faults <= old(faults) + {Inventory}
      ensures r.Value? ==> faults == old(faults) && r.value == if n in databases then Some(databases[n].owner) else None
      ensures Inventory !in faults ==> r.Value?
    {
      var fails := *;
      if fails { faults := faults + {Inventory}; return Raised; }
      return Value(if n in databases then Some(databases[n].owner) else None);
    }

    /** _read_marker and _read_full_marker: a bad exit code reads as no marker. */
    method ReadMarker(n: Name) returns (r: Answer<Option<Marker>>)
      modifies `faults
      ensures old(faults) <= faults <= old(faults) + {Reading}
      ensures r.Value? && r.value.Some? ==> r.value == MarkerOf(databases, n) && faults == old(faults)
      ensures Reading !in faults ==> r == Value(MarkerOf(databases, n))
    {
      var raises, bad := *, *;
      if raises || bad { faults := faults + {Reading}; }
      return if raises then Raised else if bad then Value(None) else Value(MarkerOf(databases, n));
    }

    method SourceIsOdoo(n: Name) returns (r: Answer<bool>)
      modifies `faults
      ensures old(faults) <= faults <= old(faults) + {Reading}
      ensures r == Value(true) ==> OdooOf(databases, n) && faults == old(faults)
      ensures Reading !in faults ==> r == Value(OdooOf(databases, n))
    {
      var raises, bad := *, *;
      if raises || bad { faults := faults + {Reading}; }
      return if raises then Raised else if bad then Value(false) else Value(OdooOf(databases, n));
    }

    /** The checks of cleanup and backup on the database they are about to touch. */
    method CheckOwned(n: Name, owner: Role, expected: Marker) returns (error: Option<Error>)
      modifies `faults
      ensures old(faults) <= faults <= old(faults) + {Inventory, Reading}
      ensures error.None? ==> Owned(databases, n, owner, expected) && faults == old(faults)
      ensures error.Some? ==> error.value in {CommandUnavailable, DatabaseMissing, OwnerMismatch, MarkerMismatch}
      ensures error == Some(OwnerMismatch) ==> n in databases && databases[n].owner != owner
      ensures error == Some(MarkerMismatch) ==>
        && n in databases && databases[n].owner == owner
        && (Reading in faults || MarkerOf(databases, n) != Some(expected))
      ensures faults == {} && n !in databases ==> error == Some(DatabaseMissing)
      ensures faults == {} && n in databases ==>
        error == if databases[n].owner != owner then Some(OwnerMismatch)
                 else if MarkerOf(databases, n) != Some(expected) then Some(MarkerMismatch)
                 else None
    {
      var present := DatabaseExists(n);
      if present != Value(true) { return Some(if present.Raised? then CommandUnavailable else DatabaseMissing); }
      var actual := DatabaseOwner(n);
      if actual != Value(Some(owner)) { return Some(if actual.Raised? then CommandUnavailable else OwnerMismatch); }
      var marker := ReadMarker(n);
      if marker != Value(Some(expected)) { return Some(if marker.Raised? then CommandUnavailable else MarkerMismatch); }
      return None;
    }

    /** The module loop of _validate_modules and _validate_required_modules. */
    method ValidateModules(n: Name, modules: set<Module>) returns (ok: bool)
      modifies `faults
      ensures old(faults) <= faults <= old(faults) + {Reading}
      ensures ok ==> forall m :: m in modules ==> HasModule(databases, n, m)
      ensures Reading !in faults && (forall m :: m in modules ==> HasModule(databases, n, m)) ==> ok
    {
      var rest := modules;
      while rest != {}
        invariant rest <= modules && old(faults) <= faults <= old(faults) + {Reading}
        invariant forall m :: m in modules - rest ==> HasModule(databases, n, m)
        decreases rest
      {
        var m :| m in rest;
        var fails := *;
        if fails { faults := faults + {Reading}; return false; }
        if !HasModule(databases, n, m) { return false; }
        rest := rest - {m};
      }
      return true;
    }

    // -- databases --------------------------------------------------------------------------

    method Dump(n: Name) returns (r: Answer<Contents>)
      modifies `faults
      ensures old(faults) <= faults <= old(faults) + {Dumping}
      ensures r.Value? ==> n in databases && r.value == databases[n].contents
      ensures Dumping !in faults && n in databases ==> r.Value?
    {
      var fails := *;
      if fails { faults := faults + {Dumping}; return Raised; }
      return if n in databases then Value(databases[n].contents) else Raised;
    }

    /** createdb; a failing one may still have created the database. */
    method Create(n: Name, owner: Role) returns (e: Exit)
      modifies `databases, `faults
      ensures old(faults) <= faults <= old(faults) + {Creating}
      ensures databases == old(databases)
        || (n !in old(databases) && databases == old(databases)[n := Database(owner, BLANK)])
      ensures e.Success? ==> n !in old(databases) && n in databases
      ensures Creating !in faults && n !in old(databases) ==> e.Success?
    {
      var fails, takes, raises := *, *, *;
      if fails { faults := faults + {Creating}; }
      if n !in databases && (!fails || takes) { databases := databases[n := Database(owner, BLANK)]; }
      else { fails := true; }
      return if !fails then Success else if raises then Unavailable else BadCode;
    }

    /** pg_restore --exit-on-error; a failing one leaves anything, but no marker the dump does not hold. */
    method Load(n: Name, dump: Contents) returns (e: Exit)
      requires n in databases && databases[n].contents.marker == None
      modifies `databases, `faults
      ensures old(faults) <= faults <= old(faults) + {LoadExit, LoadRaised}
      ensures n in databases && databases == old(databases)[n := databases[n]]
      ensures databases[n].owner == old(databases[n].owner)
      ensures databases[n].contents.marker in {None, dump.marker}
      ensures e.Success? ==> databases[n].contents == dump
      ensures e.Unavailable? ==> LoadRaised in faults
      ensures LoadExit !in faults && LoadRaised !in faults ==> e.Success?
    {
      var fails, raises := *, *;
      if !fails {
        databases := databases[n := databases[n].(contents := dump)];
        return Success;
      }
      var partial: Contents := *;
      if partial.marker == None || partial.marker == dump.marker {
        databases := databases[n := databases[n].(contents := partial)];
      }
      faults := faults + {if raises then LoadRaised else LoadExit};
      return if raises then Unavailable else BadCode;
    }

    /** The marker statement is one transaction; a failing call may still have committed it. */
    method WriteMarker(n: Name, marker: Marker) returns (ok: bool)
      requires n in databases
      modifies `databases, `faults
      ensures old(faults) <= faults <= old(faults) + {Marking}
      ensures databases == old(databases)
           || databases == old(databases)[n := WithMarker(old(databases)[n], marker)]
      ensures ok ==> databases == old(databases)[n := WithMarker(old(databases)[n], marker)]
      ensures Marking !in faults ==> ok
    {
      var fails, takes := *, *;
      if fails { faults := faults + {Marking}; }
      if !fails || takes { databases := databases[n := WithMarker(databases[n], marker)]; }
      return !fails;
    }

    /** dropdb --if-exists --force. */
    method Drop(n: Name) returns (e: Exit)
      modifies `databases, `faults
      ensures old(faults) <= faults <= old(faults) + DROP_FAULTS
      ensures databases == old(databases) || databases == old(databases) - {n}
      ensures e.BadCode? ==> DropExit in faults
      ensures e.Unavailable? ==> DropRaised in faults
      ensures faults !! DROP_FAULTS ==> e.Success?
      ensures e.Success? && DropSilent !in faults ==> databases == old(databases) - {n}
    {
      var fault: Option<Fault>, takes := *, *;
      if fault.None? || takes { databases := databases - {n}; }
      match fault
      case Some(DropExit) => faults := faults + {DropExit}; return BadCode;
      case Some(DropRaised) => faults := faults + {DropRaised}; return Unavailable;
      case Some(_) => faults := faults + {DropSilent}; return Success;
      case None => return Success;
    }

    // -- filestores -------------------------------------------------------------------------

    /** mkdir or copytree to a new folder; a failing call may leave a partial one. */
    method MakeFolder(slot: Slot, files: Filestore.Files) returns (ok: bool)
      modifies `filestores, `faults
      ensures old(faults) <= faults <= old(faults) + {Copying}
      ensures ok ==> slot !in old(filestores) && filestores == old(filestores)[slot := Folder(files, 0, false)]
      ensures !ok && filestores != old(filestores) ==>
        && slot !in old(filestores) && slot in filestores && filestores[slot].Folder?
        && filestores == old(filestores)[slot := filestores[slot]]
      ensures Copying !in faults && slot !in old(filestores) ==> ok
    {
      var fails, leaves := *, *;
      if slot in filestores { return false; }
      if fails {
        faults := faults + {Copying};
        if leaves {
          var partial: Filestore.Files := *;
          filestores := filestores[slot := Folder(partial, 0, false)];
        }
        return false;
      }
      filestores := filestores[slot := Folder(files, 0, false)];
      return true;
    }

    /** _chown_tree */
    method Chown(slot: Slot, user: User) returns (ok: bool)
      requires slot in filestores && filestores[slot].Folder?
      modifies `filestores, `faults
      ensures old(faults) <= faults <= old(faults) + {Owning}
      ensures ok ==> filestores == old(filestores)[slot := old(filestores)[slot].(user := user)]
      ensures !ok ==> filestores == old(filestores)
      ensures Owning !in faults ==> ok
    {
      var fails := *;
      if fails { faults := faults + {Owning}; return false; }
      filestores := filestores[slot := filestores[slot].(user := user)];
      return true;
    }

    /** shutil.rmtree; a failing call leaves some of the folder. It never follows a link. */
    method RemoveTree(slot: Slot) returns (ok: bool)
      modifies `filestores, `faults
      ensures old(faults) <= faults <= old(faults) + {Removing}
      ensures filestores - {slot} == old(filestores) - {slot}
      ensures slot in filestores ==> slot in old(filestores)
      ensures ok ==> slot !in filestores
      ensures slot in old(filestores) && !old(filestores[slot]).Folder? ==> filestores == old(filestores)
      ensures slot !in old(filestores) ==> filestores == old(filestores)
      ensures Removing !in faults && slot in old(filestores) && old(filestores[slot]).Folder? ==>
        ok && filestores == old(filestores) - {slot}
    {
      if slot !in filestores || !filestores[slot].Folder? { return false; }
      var fails := *;
      if fails {
        var left: Filestore.Files := *;
        faults := faults + {Removing};
        filestores := filestores[slot := filestores[slot].(files := left)];
        return false;
      }
      filestores := filestores - {slot};
      return true;
    }

    /** Path.rename to a name that is free. */
    method Rename(from: Slot, to: Slot) returns (ok: bool)
      requires from in filestores && to !in filestores
      modifies `filestores, `faults
      ensures old(faults) <= faults <= old(faults) + {Renaming}
      ensures ok ==> filestores == Moved(old(filestores), from, to)
      ensures !ok ==> filestores == old(filestores)
      ensures Renaming !in faults ==> ok
    {
      var fails := *;
      if fails { faults := faults + {Renaming}; return false; }
      filestores := Moved(filestores, from, to);
      return true;
    }
  }

  function WithMarker(d: Database, marker: Marker): Database {
    d.(contents := d.contents.(marker := Some(marker)))
  }

  function Moved(fs: map<Slot, Entry>, from: Slot, to: Slot): map<Slot, Entry>
    requires from in fs
  {
    (fs - {from})[to := fs[from]]
  }
}
