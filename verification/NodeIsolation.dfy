/** The engines together: any sequence of requests against one node. */
module NodeIsolation {
  import opened Common
  import opened Runs
  import opened NodeState
  import Filestore
  import Provisioner
  import Cleanup
  import Backup
  import Restore

  /** One request as the sequential dispatcher carries it out, with the faults it met. */
  datatype Action =
    | Provision(provision: Provisioner.Request, reply: Reply, faults: set<Fault>)
    | ProvisionTrial(provision: Provisioner.Request, reply: Reply, faults: set<Fault>)
    | Clean(cleanup: Cleanup.Request, reply: Reply, faults: set<Fault>)
    | RunBackup
    | RunRestore(restore: Restore.Request, inbox: map<Id, Restore.Artifacts>, reply: Reply, faults: set<Fault>)

  ghost predicate Next(config: Config, s: State, a: Action, s': State) {
    match a
    case Provision(req, r, faults) => Provisioner.Effect(config, req, s, r, s', faults)
    case ProvisionTrial(req, r, faults) => Provisioner.TrialEffect(config, req, s, r, s', faults)
    case Clean(req, r, faults) => Cleanup.Effect(config, req, s, r, s', faults)
    case RunBackup => s' == s
    case RunRestore(req, inbox, r, faults) => Restore.Effect(config, req, inbox, s, r, s', faults)
  }

  ghost function Trans(config: Config): (State, Action, State) -> bool { (s, a, s') => Next(config, s, a, s') }

  /** Every profile's source database is there, without a marker. */
  predicate GoldenUnmarked(config: Config, s: State) {
    forall k :: k in config.profiles ==>
      config.profiles[k].source in s.databases && s.databases[config.profiles[k].source].contents.marker == None
  }

  predicate SameSlot(fs: map<Slot, Entry>, fs': map<Slot, Entry>, slot: Slot) {
    (slot in fs <==> slot in fs') && (slot in fs ==> fs'[slot] == fs[slot])
  }

  /** The golden databases and filestores are as they were. */
  predicate GoldenKept(config: Config, s: State, s': State) {
    forall k :: k in config.profiles ==>
      var profile := config.profiles[k];
      && profile.source in s.databases && profile.source in s'.databases
      && s'.databases[profile.source] == s.databases[profile.source]
      && SameSlot(s.filestores, s'.filestores, Tenant(profile.root, profile.source))
  }

  lemma SubtractedSlot(fs: map<Slot, Entry>, fs': map<Slot, Entry>, away: set<Slot>, slot: Slot)
    requires fs' - away == fs - away && slot !in away
    ensures SameSlot(fs, fs', slot)
  {
    assert slot in fs <==> slot in fs - away;
    assert slot in fs' <==> slot in fs' - away;
  }

  lemma SubtractedName(d: map<Name, Database>, d': map<Name, Database>, n: Name, g: Name)
    requires d' - {n} == d - {n} && g != n
    ensures (g in d <==> g in d') && (g in d ==> d'[g] == d[g])
  {
    assert g in d <==> g in d - {n};
    assert g in d' <==> g in d' - {n};
  }

  /** One request of any kind, on one golden name. */
  lemma StepKeepsGolden(config: Config, s: State, a: Action, s': State, g: Name, root: Root)
    requires Next(config, s, a, s')
    requires g in s.databases && s.databases[g].contents.marker == None
    ensures g in s'.databases && s'.databases[g] == s.databases[g]
    ensures SameSlot(s.filestores, s'.filestores, Tenant(root, g))
  {
    if s' != s {
      match a
      case Provision(req, r, _) =>
        var profile := config.profiles[req.template];
        var slot := Provisioner.SlotOf(profile, req.database);
        if g != req.database {
          SubtractedName(s.databases, s'.databases, req.database, g);
          SubtractedSlot(s.filestores, s'.filestores, {slot}, Tenant(root, g));
        }
      case ProvisionTrial(req, r, _) =>
        var profile := config.profiles[req.template];
        var slot := Provisioner.SlotOf(profile, req.database);
        if g != req.database {
          SubtractedName(s.databases, s'.databases, req.database, g);
          SubtractedSlot(s.filestores, s'.filestores, {slot}, Tenant(root, g));
        }
      case Clean(req, _, _) =>
        var profile := config.profiles[req.template];
        SubtractedSlot(s.filestores, s'.filestores,
          {Cleanup.SlotOf(profile, req), Cleanup.QuarantineOf(profile, req)}, Tenant(root, g));
      case RunRestore(req, _, _, _) =>
        var profile := config.profiles[req.template];
        var away := {Restore.SlotOf(profile, req), Restore.StagingOf(profile, req)};
        assert s.filestores - away == s.filestores;
        SubtractedName(s.databases, s'.databases, req.database, g);
        SubtractedSlot(s.filestores, s'.filestores, away, Tenant(root, g));
      case RunBackup =>
    }
  }

  /** Whatever the requests, profiles and faults: no golden database or filestore ever changes. */
  lemma GoldenIsolation(config: Config, s: State, s': State)
    requires GoldenUnmarked(config, s) && Leads(Trans(config), s, s')
    ensures GoldenKept(config, s, s')
  {
    var inv := (t: State) => GoldenKept(config, s, t);
    forall t, a, t' | inv(t) && Trans(config)(t, a, t') ensures inv(t') {
      forall k | k in config.profiles ensures
        var profile := config.profiles[k];
        && profile.source in t'.databases && t'.databases[profile.source] == s.databases[profile.source]
        && SameSlot(s.filestores, t'.filestores, Tenant(profile.root, profile.source))
      {
        StepKeepsGolden(config, t, a, t', config.profiles[k].source, config.profiles[k].root);
      }
    }
    LeadsKeeps(Trans(config), inv, s, s');
  }

  /** A request that meets no fault but f fails and leaves d where no database was. */
  ghost predicate Leaks(config: Config, req: Provisioner.Request, s: State, f: Fault, d: Database) {
    exists r, s' ::
      && Next(config, s, Provision(req, r, {f}), s') && r.Failed?
      && req.database in s'.databases && s'.databases[req.database] == d
  }

  /** What one fault can leave: a createdb that raises after its work a blank database, an exception that
      escapes after createdb a blank or a complete one, a pg_restore that raises anything unmarked. */
  predicate CanLeave(profile: Profile, golden: Contents, f: Fault, d: Database) {
    && d.owner == profile.owner && d.contents.marker == None
    && match f
       case Creating => d.contents == BLANK
       case Escaping => d.contents in {BLANK, golden}
       case LoadRaised => true
       case _ => false
  }

  lemma LeftoverStep(config: Config, req: Provisioner.Request, s: State, f: Fault, r: Reply, d: Database)
    requires GoldenUnmarked(config, s) && Provisioner.Gate(config, req).None? && req.database !in s.databases
    requires var profile := config.profiles[req.template];
      && OdooOf(s.databases, profile.source) && r.Failed?
      && CanLeave(profile, s.databases[profile.source].contents, f, d)
    ensures Next(config, s, Provision(req, r, {f}), s.(databases := s.databases[req.database := d]))
  {
    var s' := s.(databases := s.databases[req.database := d]);
    assert s'.databases - {req.database} == s.databases - {req.database};
  }

  lemma LeftoverIsOne(config: Config, req: Provisioner.Request, s: State, f: Fault, r: Reply, s': State)
    requires GoldenUnmarked(config, s) && Provisioner.Gate(config, req).None? && req.database !in s.databases
    requires Next(config, s, Provision(req, r, {f}), s') && r.Failed? && req.database in s'.databases
    requires f !in DROP_FAULTS
    ensures var profile := config.profiles[req.template];
      && OdooOf(s.databases, profile.source)
      && CanLeave(profile, s.databases[profile.source].contents, f, s'.databases[req.database])
  {
    assert Provisioner.Leftover(req, config.profiles[req.template], s, s', {f});
    assert s.databases[config.profiles[req.template].source].contents.marker == None;
  }

  /** Where the golden database is an Odoo database, exactly three kinds of fault can leave a database on
      an absent name while dropdb works, and these are the databases; elsewhere none can. */
  lemma LeakIsReachable(config: Config, req: Provisioner.Request, s: State, f: Fault, d: Database)
    requires GoldenUnmarked(config, s) && Provisioner.Gate(config, req).None? && req.database !in s.databases
    requires f !in DROP_FAULTS
    ensures var profile := config.profiles[req.template];
      Leaks(config, req, s, f, d) <==>
        && s.databases[profile.source].contents.odoo && d.owner == profile.owner && d.contents.marker == None
        && match f
           case Creating => d.contents == Contents(false, {}, 0, None)
           case Escaping => d.contents in {Contents(false, {}, 0, None), s.databases[profile.source].contents}
           case LoadRaised => true
           case _ => false
  {
    var profile := config.profiles[req.template];
    assert profile.source in s.databases;
    hide Next, CanLeave;
    if Leaks(config, req, s, f, d) {
      var r, s' :| Next(config, s, Provision(req, r, {f}), s') && r.Failed?
                   && req.database in s'.databases && s'.databases[req.database] == d;
      LeftoverIsOne(config, req, s, f, r, s');
    }
    if OdooOf(s.databases, profile.source) && CanLeave(profile, s.databases[profile.source].contents, f, d) {
      var r := Failed(if f == Escaping then Internal else CommandUnavailable);
      LeftoverStep(config, req, s, f, r, d);
    }
  }

  /** A database that createdb, pg_restore or an escaped exception left behind without a marker: no later
      request removes or adopts it, and none for its name succeeds. */
  lemma LeakIsForever(config: Config, s: State, s': State, n: Name, a: Action, s'': State)
    requires n in s.databases && s.databases[n].contents.marker == None
    requires Leads(Trans(config), s, s') && Next(config, s', a, s'')
    ensures n in s'.databases && s'.databases[n] == s.databases[n]
    ensures (a.Provision? || a.ProvisionTrial?) && a.provision.database == n ==> a.reply.Failed?
    ensures a.Clean? && a.cleanup.database == n ==> a.reply.Failed?
    ensures a.RunRestore? && a.restore.database == n ==> a.reply.Failed?
  {
    var inv := (t: State) => n in t.databases && t.databases[n] == s.databases[n];
    forall t, b, t' | inv(t) && Trans(config)(t, b, t') ensures inv(t') {
      StepKeepsGolden(config, t, b, t', n, 0);
    }
    LeadsKeeps(Trans(config), inv, s, s');
  }

  lemma StepKeepsStaging(config: Config, s: State, a: Action, s': State, slot: Slot)
    requires Next(config, s, a, s') && slot.Staging? && slot in s.filestores
    ensures slot in s'.filestores && s'.filestores[slot] == s.filestores[slot]
  {
    if s' != s {
      match a
      case Provision(req, _, _) =>
        var own := Provisioner.SlotOf(config.profiles[req.template], req.database);
        SubtractedSlot(s.filestores, s'.filestores, {own}, slot);
      case ProvisionTrial(req, _, _) =>
        var own := Provisioner.SlotOf(config.profiles[req.template], req.database);
        SubtractedSlot(s.filestores, s'.filestores, {own}, slot);
      case Clean(req, _, _) =>
        var profile := config.profiles[req.template];
        SubtractedSlot(s.filestores, s'.filestores,
          {Cleanup.SlotOf(profile, req), Cleanup.QuarantineOf(profile, req)}, slot);
      case RunRestore(req, _, _, _) =>
        var profile := config.profiles[req.template];
        var away := {Restore.SlotOf(profile, req), Restore.StagingOf(profile, req)};
        assert s.filestores - away == s.filestores;
        SubtractedSlot(s.filestores, s'.filestores, away, slot);
      case RunBackup =>
    }
  }

  /** From any state in which a restore can start: an exception that escapes while it extracts leaves its
      staging folder, with exactly the files an interrupted extraction can have written. */
  lemma StagingLeftoverIsReachable(config: Config, req: Restore.Request, inbox: map<Id, Restore.Artifacts>,
                                   s: State, files: Filestore.Files)
    requires Restore.Gate(config, req).None? && req.operation in inbox && req.database !in s.databases
    requires Restore.SlotOf(config.profiles[req.template], req) !in s.filestores
    requires Restore.StagingOf(config.profiles[req.template], req) !in s.filestores
    ensures (exists s' ::
               && Next(config, s, RunRestore(req, inbox, Failed(Internal), {Escaping}), s')
               && Restore.StagingOf(config.profiles[req.template], req) in s'.filestores
               && FilesOf(s'.filestores, Restore.StagingOf(config.profiles[req.template], req)) == files)
       <==> Filestore.Interrupted(inbox[req.operation].members, req.sourceDatabase, files)
  {
    hide Filestore.Interrupted;
    if Filestore.Interrupted(inbox[req.operation].members, req.sourceDatabase, files) {
      EscapeStep(config, req, inbox, s, files);
    }
  }

  lemma EscapeStep(config: Config, req: Restore.Request, inbox: map<Id, Restore.Artifacts>, s: State,
                   files: Filestore.Files)
    requires Restore.Gate(config, req).None? && req.operation in inbox && req.database !in s.databases
    requires Restore.SlotOf(config.profiles[req.template], req) !in s.filestores
    requires Restore.StagingOf(config.profiles[req.template], req) !in s.filestores
    requires Filestore.Interrupted(inbox[req.operation].members, req.sourceDatabase, files)
    ensures var staging := Restore.StagingOf(config.profiles[req.template], req);
      Next(config, s, RunRestore(req, inbox, Failed(Internal), {Escaping}),
           s.(filestores := s.filestores[staging := Folder(files, 0, false)]))
  {
    hide Filestore.Interrupted;
    var slot := Restore.SlotOf(config.profiles[req.template], req);
    var staging := Restore.StagingOf(config.profiles[req.template], req);
    var s' := s.(filestores := s.filestores[staging := Folder(files, 0, false)]);
    assert s'.databases - {req.database} == s.databases && s'.filestores - {slot, staging} == s.filestores;
  }

  /** And from any state in which a restore would succeed: a chown that fails and an rmtree that fails
      after it leave the folder too. */
  lemma FailedRemovalIsReachable(config: Config, req: Restore.Request, inbox: map<Id, Restore.Artifacts>, s: State)
    requires Restore.Eligible(config, req, inbox, s) && req.database !in s.databases
    ensures exists s' ::
      && Next(config, s, RunRestore(req, inbox, Failed(FilestoreFailed), {Owning, Removing}), s')
      && Restore.StagingOf(config.profiles[req.template], req) in s'.filestores
  {
    var slot := Restore.SlotOf(config.profiles[req.template], req);
    var staging := Restore.StagingOf(config.profiles[req.template], req);
    var s' := s.(filestores := s.filestores[staging := Folder(map[], 0, false)]);
    assert s'.databases - {req.database} == s.databases && s'.filestores - {slot, staging} == s.filestores;
    assert Next(config, s, RunRestore(req, inbox, Failed(FilestoreFailed), {Owning, Removing}), s');
  }

  /** A staging folder that a failed removal or an escaped exception left behind: nothing ever removes
      it, and while the target database is absent every new attempt of that restore fails. */
  lemma StagingLeftoverIsForever(config: Config, s: State, s': State, root: Root, req: Restore.Request,
                                 inbox: map<Id, Restore.Artifacts>, r: Reply, faults: set<Fault>, s'': State)
    requires Slot.Staging(root, req.operation) in s.filestores && Leads(Trans(config), s, s')
    requires req.template in config.profiles && config.profiles[req.template].root == root
    requires Restore.Effect(config, req, inbox, s', r, s'', faults)
    ensures Slot.Staging(root, req.operation) in s'.filestores
    ensures req.database !in s'.databases ==> r.Failed? && s'' == s'
  {
    var slot := Slot.Staging(root, req.operation);
    var inv := (t: State) => slot in t.filestores;
    forall t, a, t' | inv(t) && Trans(config)(t, a, t') ensures inv(t') {
      StepKeepsStaging(config, t, a, t', slot);
    }
    LeadsKeeps(Trans(config), inv, s, s');
  }

  /** A request changes or destroys a database that was there before it only when that database's
      marker names the request's tenant and template. */
  lemma DestroysOnlyItsOwn(config: Config, s: State, a: Action, s': State, n: Name)
    requires Next(config, s, a, s') && n in s.databases
    requires n !in s'.databases || s'.databases[n] != s.databases[n]
    ensures n !in s'.databases
    ensures match a
      case ProvisionTrial(req, _, _) =>
        && n == req.database && req.environment == Trial
        && exists id :: s.databases[n].contents.marker == Some(Marker(req.tenant, req.template, id))
      case Clean(req, _, _) =>
        && n == req.database && req.template in config.profiles
        && s.databases[n].owner == config.profiles[req.template].owner
        && s.databases[n].contents.marker == Some(Marker(req.tenant, req.template, req.provisioning))
      case _ => false
  {
    assert s' != s;
    match a
    case Provision(req, _, _) =>
      if n != req.database { SubtractedName(s.databases, s'.databases, req.database, n); }
    case ProvisionTrial(req, r, faults) =>
      if n != req.database { SubtractedName(s.databases, s'.databases, req.database, n); }
      Provisioner.WithdrawalMeans(config, req, s, r, s', faults);
    case Clean(req, _, _) =>
    case RunRestore(req, _, _, _) =>
      SubtractedName(s.databases, s'.databases, req.database, n);
    case RunBackup =>
  }

  // ---------------------------------------------------------------------------------------
  // Inverses
  // ---------------------------------------------------------------------------------------

  /** Sending a restore again after it succeeded: the same answer and no change. */
  lemma RestoreReplays(config: Config, req: Restore.Request, inbox: map<Id, Restore.Artifacts>,
                       s: State, s1: State, s2: State, r: Reply, faults: set<Fault>)
    requires Restore.Effect(config, req, inbox, s, Validated, s1, faults)
    requires Restore.Effect(config, req, inbox, s1, r, s2, {})
    ensures r == Validated && s2 == s1
  {
    var profile := config.profiles[req.template];
    assert Restore.InPlace(profile, req, s1);
  }

  /** Provisioning an absent database and cleaning it up again leaves the node as it was. */
  lemma CleanupUndoesProvision(config: Config, req: Provisioner.Request, cleanup: Cleanup.Request,
                               s: State, s1: State, s2: State, r: Reply, faults: set<Fault>)
    requires Provisioner.Vacant(config, req, s)
    requires Provisioner.Effect(config, req, s, Ready, s1, faults)
    requires cleanup.tenant == req.tenant && cleanup.template == req.template && cleanup.environment == req.environment
    requires cleanup.database == req.database && cleanup.provisioning == req.operation
    requires Cleanup.QuarantineOf(config.profiles[req.template], cleanup) !in s.filestores
    requires Cleanup.Effect(config, cleanup, s1, r, s2, {})
    ensures r == Cleaned && s2 == s
  {
    var profile := config.profiles[req.template];
    assert Provisioner.ReadyEffect(config, req, s, s1);
    assert Owned(s1.databases, req.database, profile.owner, Cleanup.Expected(cleanup));
    assert Cleanup.Eligible(config, cleanup, s1);
    assert s1.databases - {req.database} == s.databases;
    assert s1.filestores - {Cleanup.SlotOf(profile, cleanup)} == s.filestores;
  }

  /** The request restores the backup's own source, from the workspace the backup filled. */
  predicate Carries(backup: Backup.Request, w: Backup.Workspace, req: Restore.Request,
                    inbox: map<Id, Restore.Artifacts>) {
    && Backup.Complete(w, backup)
    && req.operation in inbox && inbox[req.operation] == Restore.Artifacts(w.dump.value, w.archive.value)
    && req.sourceDatabase == backup.database && req.sourceTenant == backup.tenant
    && req.template == backup.template && req.provisioning == backup.provisioning
  }

  /** A restored backup is the source's database under the target's marker, and the source's filestore. */
  lemma RestoreOfBackup(config: Config, backup: Backup.Request,
                        ws: map<Id, Backup.Workspace>, ws': map<Id, Backup.Workspace>,
                        req: Restore.Request, inbox: map<Id, Restore.Artifacts>,
                        s: State, t: State, t': State, faults: set<Fault>, faults': set<Fault>)
    requires Backup.Effect(config, backup, s, ws, Prepared, ws', faults) && backup.operation !in ws
    requires Filestore.SafeName(backup.database)
    requires Carries(backup, ws'[backup.operation], req, inbox)
    requires req.database !in t.databases && Restore.Effect(config, req, inbox, t, Validated, t', faults')
    ensures var profile := config.profiles[req.template];
      && req.database in t'.databases
      && t'.databases[req.database].contents ==
           s.databases[backup.database].contents.(marker := Some(Restore.TargetMarker(req)))
      && Tenant(profile.root, req.database) in t'.filestores
      && FilesOf(t'.filestores, Tenant(profile.root, req.database)) ==
           FilesOf(s.filestores, Tenant(profile.root, backup.database))
  {
    var w := ws'[backup.operation];
    var slot := Tenant(config.profiles[backup.template].root, backup.database);
    var tree :| Backup.Archives(w.archive.value, backup.database, s.filestores[slot].files, tree);
    Filestore.ArchiveRoundTrip(backup.database, tree);
  }

  /** And without faults the restore succeeds whenever its names are free, the profile's modules are
      installed and the filestore is within the limits. */
  lemma BackupCanBeRestored(config: Config, backup: Backup.Request,
                            ws: map<Id, Backup.Workspace>, ws': map<Id, Backup.Workspace>,
                            req: Restore.Request, inbox: map<Id, Restore.Artifacts>, tree: Filestore.Forest,
                            s: State, t: State, r: Reply, t': State, faults: set<Fault>)
    requires Backup.Effect(config, backup, s, ws, Prepared, ws', faults) && backup.operation !in ws
    requires Filestore.SafeName(backup.database)
    requires Carries(backup, ws'[backup.operation], req, inbox) && Restore.Gate(config, req).None?
    requires Backup.Archives(ws'[backup.operation].archive.value, backup.database,
      FilesOf(s.filestores, Tenant(config.profiles[backup.template].root, backup.database)), tree)
    requires var profile := config.profiles[req.template];
      && req.database !in t.databases
      && Restore.SlotOf(profile, req) !in t.filestores && Restore.StagingOf(profile, req) !in t.filestores
      && profile.allowed <= s.databases[backup.database].contents.modules && s.databases[backup.database].contents.odoo
    requires Restore.Effect(config, req, inbox, t, r, t', {})
    ensures r == Validated <==>
      1 + Filestore.Count(tree) <= Filestore.MAX_ARCHIVE_MEMBERS
        && Filestore.Bytes(tree) <= Filestore.MAX_EXTRACTED_BYTES
  {
    Filestore.ArchiveRoundTrip(backup.database, tree);
  }
}
