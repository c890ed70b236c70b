/** The live configuration in split mode: every change is checked against the root file as it is now. */
module LiveConfig {
  import opened Types
  import opened ConfigPatch
  import opened RuntimeSettings

  /** What reading the root-owned file yields at the moment of a call: a parsed configuration, or nothing usable. */
  datatype RootFile = Bad | Parsed(config: AppConfig)

  /** `sink` is the open audit log, if the process has one. */
  datatype State = State(live: AppConfig, overlay: OverlayFile, sink: Option<LogPath>)

  /** The files that an audit log must never be. */
  datatype Reserved = Reserved(rootPath: LogPath, settingsPath: LogPath)

  datatype Turn = Turn(state: State, result: Outcome<AppConfig>)

  function Ceiling(root: RootFile): Outcome<AppConfig> {
    match root
    case Bad => Refused(PermissionDenied)
    case Parsed(c) => if AppOk(c) then Done(c) else Refused(Validation)
  }

  function CheckRuntime(c: AppConfig, root: RootFile): Outcome<()> {
    var base :- Ceiling(root);
    Validated(c, base)
  }

  /** The log path is filled in from the open log, must not be a configuration file, and must open. */
  function PrepareAudit(s: State, files: Reserved, c: AppConfig, opens: bool): Outcome<AppConfig> {
    var ready := if c.audit.path.None? && s.sink.Some? then c.(audit := c.audit.(path := s.sink)) else c;
    if ready.audit.path == Some(files.rootPath) || ready.audit.path == Some(files.settingsPath) then Refused(Validation)
    else if s.sink.Some? && ready.audit.path != s.sink && !opens then Refused(Internal)
    else Done(ready)
  }

  function Publish(s: State, c: AppConfig): State {
    s.(live := c, sink := if s.sink.Some? && c.audit.path.Some? then c.audit.path else s.sink)
  }

  function Store(s: State, files: Reserved, c: AppConfig, root: RootFile, opens: bool): Turn {
    if !AppOk(c) || c.server.transport != s.live.server.transport then Turn(s, Refused(Validation)) else
    var check := CheckRuntime(c, root);
    if check.Refused? then Turn(s, Refused(check.error)) else
    var ready := PrepareAudit(s, files, c, opens);
    if ready.Refused? then Turn(s, ready) else Turn(Publish(s, ready.value), ready)
  }

  function ReadOver(overlay: OverlayFile, root: RootFile): Outcome<AppConfig> {
    var base :- Ceiling(root);
    Read(overlay, base)
  }

  function Reload(s: State, files: Reserved, root: RootFile, opens: bool): Turn {
    var loaded := ReadOver(s.overlay, root);
    if loaded.Refused? then Turn(s, loaded)
    else if loaded.value.server.transport != s.live.server.transport then Turn(s, Refused(Validation))
    else
      var ready := PrepareAudit(s, files, loaded.value, opens);
      if ready.Refused? then Turn(s, ready) else Turn(Publish(s, ready.value), ready)
  }

  /** How far writing the overlay file got: the rename may have happened even when the call reports an error. */
  datatype Write = Write(renamed: bool, ok: bool)

  function Persist(s: State, c: AppConfig, root: RootFile, write: Write): Turn {
    var check := CheckRuntime(c, root);
    if check.Refused? then Turn(s, Refused(check.error)) else
    Turn(if write.renamed || write.ok then s.(overlay := Saved(Projected(c))) else s,
         if write.ok then Done(c) else Refused(Internal))
  }

  function ApplyPatch(s: State, files: Reserved, p: Patch, save: bool, root: RootFile, opens: bool, write: Write): Turn {
    if p.staticDir.Some? || !PatchAllowed(p) then Turn(s, Refused(PermissionDenied)) else
    var c := Applied(p, s.live);
    if !AppOk(c) then Turn(s, Refused(Validation)) else
    var check := CheckRuntime(c, root);
    if check.Refused? then Turn(s, Refused(check.error)) else
    var ready := PrepareAudit(s, files, c, opens);
    if ready.Refused? then Turn(s, ready) else
    var saved := if save then Persist(s, ready.value, root, write) else Turn(s, ready);
    if saved.result.Refused? then saved else Turn(Publish(saved.state, ready.value), ready)
  }

  function SaveToFile(s: State, root: RootFile, write: Write): Turn {
    Persist(s, s.live, root, write)
  }

  // ---------- Whole runs ----------

  datatype Event =
    | EvStore(config: AppConfig, root: RootFile, opens: bool)
    | EvReload(root: RootFile, opens: bool)
    | EvPatch(patch: Patch, save: bool, root: RootFile, opens: bool, write: Write)
    | EvSave(root: RootFile, write: Write)

  function Step(s: State, files: Reserved, ev: Event): Turn {
    match ev
    case EvStore(config, root, opens) => Store(s, files, config, root, opens)
    case EvReload(root, opens) => Reload(s, files, root, opens)
    case EvPatch(patch, save, root, opens, write) => ApplyPatch(s, files, patch, save, root, opens, write)
    case EvSave(root, write) => SaveToFile(s, root, write)
  }

  function Final(s: State, files: Reserved, run: seq<Event>): State
    decreases |run|
  {
    if run == [] then s else Final(Step(s, files, run[0]).state, files, run[1..])
  }

  /** The live settings are valid and within the ceiling. */
  predicate Conforms(c: AppConfig, root: RootFile) {
    Ceiling(root).Done? && Validated(c, root.config).Done?
  }

  predicate NamesLog(root: RootFile) {
    root.Parsed? && root.config.audit.path.Some?
  }

  lemma {:induction false} PreparedSame(s: State, files: Reserved, c: AppConfig, opens: bool)
    requires c.audit.path.Some? && PrepareAudit(s, files, c, opens).Done?
    ensures PrepareAudit(s, files, c, opens).value == c
  {
  }

  /** A setting under a ceiling that names a log path names one too. */
  lemma {:induction false} LogNamed(c: AppConfig, root: RootFile)
    requires Conforms(c, root) && NamesLog(root)
    ensures c.audit.path.Some?
  {
    hide AppOk, NoNewFeature, NoHigherLimit, NoLooser, KeptNoLonger;
  }

  lemma {:induction false} ReadConforms(overlay: OverlayFile, root: RootFile)
    requires ReadOver(overlay, root).Done?
    ensures Conforms(ReadOver(overlay, root).value, root)
  {
    hide AppOk, NoNewFeature, NoHigherLimit, NoLooser, KeptNoLonger, Applied;
    if overlay.NoOverlay? {
      Reflexive(root.config);
    }
  }

  lemma {:induction false} Reflexive(c: AppConfig)
    ensures UnderCeiling(c, c)
  {
  }

  /** Whatever call publishes settings, they conform to the root file that this call read. */
  lemma {:induction false} PublishedConforms(s: State, files: Reserved, ev: Event)
    requires NamesLog(ev.root) && Step(s, files, ev).result.Done?
    ensures Conforms(Step(s, files, ev).state.live, ev.root) && Step(s, files, ev).result == Done(Step(s, files, ev).state.live)
  {
    hide AppOk, Validated, Applied, Read, Projected, PatchAllowed;
    match ev {
      case EvStore(config, root, opens) =>
        LogNamed(config, root);
        PreparedSame(s, files, config, opens);
      case EvReload(root, opens) =>
        ReadConforms(s.overlay, root);
        LogNamed(ReadOver(s.overlay, root).value, root);
        PreparedSame(s, files, ReadOver(s.overlay, root).value, opens);
      case EvPatch(patch, save, root, opens, write) =>
        LogNamed(Applied(patch, s.live), root);
        PreparedSame(s, files, Applied(patch, s.live), opens);
      case EvSave(root, write) =>
    }
  }

  /** A refused call leaves the live settings and the open log alone. */
  lemma {:induction false} RefusedChangesNothing(s: State, files: Reserved, ev: Event)
    requires Step(s, files, ev).result.Refused?
    ensures Step(s, files, ev).state.live == s.live && Step(s, files, ev).state.sink == s.sink
  {
    hide AppOk, CheckRuntime, Applied, ReadOver, Projected, PatchAllowed;
  }

  lemma {:induction false} StepKeepsTransport(s: State, files: Reserved, ev: Event)
    ensures Step(s, files, ev).state.live.server.transport == s.live.server.transport
  {
    hide AppOk, CheckRuntime, ReadOver, Projected, AppliedAudit, AppliedRootOnly, ApplyFeatures, ApplyLimits, ApplySession;
  }

  /** No run of stores, patches, saves and reloads ever changes how the service listens. */
  lemma {:induction false} TransportNeverChanges(s: State, files: Reserved, run: seq<Event>)
    ensures Final(s, files, run).live.server.transport == s.live.server.transport
    decreases |run|
  {
    hide Step;
    if run != [] {
      StepKeepsTransport(s, files, run[0]);
      TransportNeverChanges(Step(s, files, run[0]).state, files, run[1..]);
    }
  }

  /** The root file that the last successful call of a run read, or the one to start from. */
  function LastRoot(s: State, files: Reserved, start: RootFile, run: seq<Event>): RootFile
    decreases |run|
  {
    if run == [] then start else
    var t := Step(s, files, run[0]);
    LastRoot(t.state, files, if t.result.Done? then run[0].root else start, run[1..])
  }

  /** In every reachable state the live settings conform to the ceiling that the last successful call read. */
  lemma {:induction false} LiveAlwaysVouched(s: State, files: Reserved, start: RootFile, run: seq<Event>)
    requires Conforms(s.live, start) && forall i :: 0 <= i < |run| ==> NamesLog(run[i].root)
    ensures Conforms(Final(s, files, run).live, LastRoot(s, files, start, run))
    decreases |run|
  {
    hide Step, Conforms, NamesLog;
    if run != [] {
      var e := Step(s, files, run[0]).state;
      if Step(s, files, run[0]).result.Done? {
        PublishedConforms(s, files, run[0]);
        LiveAlwaysVouched(e, files, run[0].root, run[1..]);
      } else {
        RefusedChangesNothing(s, files, run[0]);
        LiveAlwaysVouched(e, files, start, run[1..]);
      }
    }
  }

  // ---------- Saving and reloading ----------

  /** Saving and then reloading under the same root file returns the live settings, with retention in hours. */
  lemma {:induction false} SaveThenReload(s: State, files: Reserved, root: RootFile, write: Write, opens: bool)
    requires NamesLog(root) && SaveToFile(s, root, write).result.Done?
    requires s.live.audit.path != Some(files.rootPath) && s.live.audit.path != Some(files.settingsPath)
    requires opens || s.sink == s.live.audit.path
    ensures var saved := SaveToFile(s, root, write).state;
            && Reload(saved, files, root, opens).result == Done(InHours(s.live))
            && Reload(saved, files, root, opens).state.live == InHours(s.live)
  {
    hide AppOk, UnderCeiling, Applied, Projected, Read;
    LogNamed(s.live, root);
    ProjectionReadsBack(s.live, root.config);
  }

  /** What a successful call makes live: the settings that were sent, those of the files, or the patched ones. */
  lemma {:induction false} AskedIsLive(s: State, files: Reserved, ev: Event)
    requires Step(s, files, ev).result.Done?
    ensures var e := Step(s, files, ev).state;
      var asked := match ev
        case EvStore(config, _, _) => Some(config)
        case EvReload(root, _) => if ReadOver(s.overlay, root).Done? then Some(ReadOver(s.overlay, root).value) else None
        case EvPatch(patch, _, _, _, _) => Some(Applied(patch, s.live))
        case EvSave(_, _) => Some(s.live);
      && asked.Some?
      && (if asked.value.audit.path.Some? || s.sink.None? || ev.EvSave? then e.live == asked.value
          else e.live == asked.value.(audit := asked.value.audit.(path := s.sink)))
      && (ev.EvSave? || (ev.EvPatch? && ev.save) ==> e.overlay == Saved(Projected(e.live)))
      && (ev.EvStore? || ev.EvReload? || (ev.EvPatch? && !ev.save) ==> e.overlay == s.overlay)
      && (!ev.EvSave? && s.sink.Some? ==> e.sink == e.live.audit.path) && (s.sink.None? ==> e.sink.None?)
  {
    hide AppOk, Validated, Applied, Read, Projected, PatchAllowed;
  }

  predicate LogSafe(s: State, files: Reserved) {
    s.sink != Some(files.rootPath) && s.sink != Some(files.settingsPath)
  }

  lemma {:induction false} StepLogSafe(s: State, files: Reserved, ev: Event)
    requires LogSafe(s, files)
    ensures LogSafe(Step(s, files, ev).state, files)
  {
    hide AppOk, CheckRuntime, Applied, ReadOver, Projected, PatchAllowed;
  }

  /** In no run does the audit log come to be one of the configuration files. */
  lemma {:induction false} NeverLogsIntoSettings(s: State, files: Reserved, run: seq<Event>)
    requires LogSafe(s, files)
    ensures LogSafe(Final(s, files, run), files)
    decreases |run|
  {
    hide Step, LogSafe;
    if run != [] {
      StepLogSafe(s, files, run[0]);
      NeverLogsIntoSettings(Step(s, files, run[0]).state, files, run[1..]);
    }
  }

  // ---------- A root file that names no log ----------

  /**
    Without a log path in the root file the open log's path is filled in after the check. So whatever call
    publishes settings, they conform exactly when there was no open log to fill in; saving publishes nothing,
    and succeeds only on settings that conform.
   */
  lemma {:induction false} UnnamedLogConforms(s: State, files: Reserved, ev: Event)
    requires ev.root.Parsed? && ev.root.config.audit.path.None? && Step(s, files, ev).result.Done?
    ensures Conforms(Step(s, files, ev).state.live, ev.root) <==> ev.EvSave? || s.sink.None?
  {
    hide AppOk, Validated, Applied, Read, Projected, PatchAllowed;
    match ev {
      case EvStore(config, root, opens) => FilledIn(s, files, config, root, opens);
      case EvReload(root, opens) =>
        ReadConforms(s.overlay, root);
        FilledIn(s, files, ReadOver(s.overlay, root).value, root, opens);
      case EvPatch(patch, save, root, opens, write) => FilledIn(s, files, Applied(patch, s.live), root, opens);
      case EvSave(root, write) =>
    }
  }

  lemma {:induction false} FilledIn(s: State, files: Reserved, c: AppConfig, root: RootFile, opens: bool)
    requires root.Parsed? && root.config.audit.path.None? && Conforms(c, root) && PrepareAudit(s, files, c, opens).Done?
    ensures Conforms(PrepareAudit(s, files, c, opens).value, root) <==> s.sink.None?
  {
    hide AppOk, NoNewFeature, NoHigherLimit, NoLooser, KeptNoLonger;
  }

  /** From then on nothing can be saved or patched under that root file: the filled-in path is refused. */
  lemma {:induction false} UnnamedLogBlocks(s: State, files: Reserved, ev: Event)
    requires ev.root.Parsed? && ev.root.config.audit.path.None? && s.live.audit.path.Some? && (ev.EvSave? || ev.EvPatch?)
    ensures Step(s, files, ev).result.Refused? && Step(s, files, ev).state == s
  {
    hide AppOk, NoNewFeature, NoHigherLimit, NoLooser, KeptNoLonger, AppliedRootOnly, ApplyFeatures, ApplyLimits, ApplySession,
      ApplyRate, ApplySearch, Projected, PatchAllowed, PrepareAudit;
  }

  const LOG: LogPath := LogPath(Some("/var/log"), Some("audit.jsonl"), true)

  /** Valid settings without a log path. */
  const UNNAMED: AppConfig := AppConfig(
    Server(Transport("127.0.0.1:8080", false, None, None, None, None), None),
    RootOnly(Proxy([], "none"), Security("binary", true, []), ["home"], [], [], [], [], None, 1024, true),
    90, Features(true, true, true, true, false),
    Limits(MIB, 256 * KIB, 4 * MIB, 256 * KIB, 1024, 500, 200, 128 * KIB, 50 * MIB),
    Audit(Some(504), None, 1048576, 5, None),
    Session("td", 600, 3600, false, "strict"), 30, Search(8, 100, 1000), RateLimit(5, 300))

  /** Root's own settings, stored while a log is open, are published in a form that the ceiling refuses. */
  lemma {:induction false} UnnamedLogInstance(files: Reserved)
    requires files.rootPath != LOG && files.settingsPath != LOG
    ensures var s := State(UNNAMED, NoOverlay, Some(LOG)); var t := Store(s, files, UNNAMED, Parsed(UNNAMED), true);
      t.result.Done? && !Conforms(t.state.live, Parsed(UNNAMED))
  {
    hide UnderCeiling;
    var s := State(UNNAMED, NoOverlay, Some(LOG));
    assert AppOk(UNNAMED);
    Reflexive(UNNAMED);
    FilledIn(s, files, UNNAMED, Parsed(UNNAMED), true);
  }

  // ---------- The object ----------

  class DynamicConfig {
    var live: AppConfig
    var overlay: OverlayFile
    var sink: Option<LogPath>
    const files: Reserved

    function Current(): State
      reads this
    {
      State(live, overlay, sink)
    }

    constructor (c: AppConfig, existing: OverlayFile, log: Option<LogPath>, f: Reserved)
      ensures Current() == State(c, existing, log) && files == f
    {
      live, overlay, sink, files := c, existing, log, f;
    }

    method CommitAudit(c: AppConfig)
      modifies this
      ensures Current() == Publish(old(Current()), c)
    {
      if sink.Some? && c.audit.path.Some? {
        sink := c.audit.path;
      }
      live := c;
    }

    method CheckAgainstRoot(c: AppConfig, root: RootFile) returns (r: Outcome<()>)
      ensures r == CheckRuntime(c, root)
    {
      hide AppOk, Validated;
      var base := Ceiling(root);
      if base.Refused? {
        return Refused(base.error);
      }
      r := Validate(c, base.value);
    }

    method StoreConfig(c: AppConfig, root: RootFile, opens: bool) returns (r: Outcome<AppConfig>)
      modifies this
      ensures Turn(Current(), r) == Store(old(Current()), files, c, root, opens)
    {
      hide AppOk, CheckRuntime, PrepareAudit, Publish;
      if !AppOk(c) {
        return Refused(Validation);
      }
      if c.server.transport != live.server.transport {
        return Refused(Validation);
      }
      var check := CheckAgainstRoot(c, root);
      if check.Refused? {
        return Refused(check.error);
      }
      r := PrepareAudit(Current(), files, c, opens);
      if r.Done? {
        CommitAudit(r.value);
      }
    }

    method ReloadConfig(root: RootFile, opens: bool) returns (r: Outcome<AppConfig>)
      modifies this
      ensures Turn(Current(), r) == Reload(old(Current()), files, root, opens)
    {
      hide AppOk, Validated, PrepareAudit, Publish, Applied;
      var base := Ceiling(root);
      if base.Refused? {
        return base;
      }
      var loaded := base.value;
      if overlay.Unreadable? {
        return Refused(Validation);
      }
      if overlay.Saved? {
        if !PatchAllowed(overlay.patch) {
          return Refused(PermissionDenied);
        }
        loaded := Apply(overlay.patch, base.value);
        var check := Validate(loaded, base.value);
        if check.Refused? {
          return Refused(check.error);
        }
      }
      if loaded.server.transport != live.server.transport {
        return Refused(Validation);
      }
      r := PrepareAudit(Current(), files, loaded, opens);
      if r.Done? {
        CommitAudit(r.value);
      }
    }

    method PersistConfig(c: AppConfig, root: RootFile, write: Write) returns (r: Outcome<AppConfig>)
      modifies this
      ensures Turn(Current(), r) == Persist(old(Current()), c, root, write)
    {
      hide CheckRuntime;
      var check := CheckAgainstRoot(c, root);
      if check.Refused? {
        return Refused(check.error);
      }
      if write.renamed || write.ok {
        overlay := Saved(Projected(c));
      }
      r := if write.ok then Done(c) else Refused(Internal);
    }

    method ApplyPatchSaved(p: Patch, save: bool, root: RootFile, opens: bool, write: Write) returns (r: Outcome<AppConfig>)
      modifies this
      ensures Turn(Current(), r) == ApplyPatch(old(Current()), files, p, save, root, opens, write)
    {
      hide AppOk, CheckRuntime, PrepareAudit, Publish, Applied, PatchAllowed, Persist;
      if p.staticDir.Some? || !PatchAllowed(p) {
        return Refused(PermissionDenied);
      }
      var c := Apply(p, live);
      if !AppOk(c) {
        return Refused(Validation);
      }
      var check := CheckAgainstRoot(c, root);
      if check.Refused? {
        return Refused(check.error);
      }
      var ready := PrepareAudit(Current(), files, c, opens);
      if ready.Refused? {
        return ready;
      }
      if save {
        var saved := PersistConfig(ready.value, root, write);
        if saved.Refused? {
          return saved;
        }
      }
      CommitAudit(ready.value);
      r := ready;
    }

    method SaveConfig(root: RootFile, write: Write) returns (r: Outcome<AppConfig>)
      modifies this
      ensures Turn(Current(), r) == SaveToFile(old(Current()), root, write)
    {
      hide Persist;
      r := PersistConfig(live, root, write);
    }
  }
}
