/** Application settings and the partial updates that preserve every omitted field. */
module ConfigPatch {
  import opened Types

  datatype Features = Features(saveText: bool, chmod: bool, extract: bool, delete: bool, chown: bool)

  datatype Limits = Limits(
    frame: nat, control: nat, decompressed: nat, chunk: nat, inFlight: nat,
    directoryPage: nat, defaultPage: nat, textEdit: nat, preview: nat)

  datatype Session = Session(cookie: string, idle: nat, lifetime: nat, secure: bool, sameSite: string)
  datatype RateLimit = RateLimit(maxFailures: nat, lockSeconds: nat)
  datatype Search = Search(maxDepth: nat, defaultResults: nat, maxResults: nat)

  /** A path by its parent directory and final component; `plain` means absolute and free of "..". */
  datatype LogPath = LogPath(parent: Option<string>, name: Option<string>, plain: bool)

  datatype Audit = Audit(
    retentionHours: Option<nat>, path: Option<LogPath>, maxFileBytes: nat, maxArchives: nat, retentionDays: Option<nat>)

  datatype Transport = Transport(
    bind: string, behindProxy: bool, requireTls: Option<bool>,
    cert: Option<LogPath>, key: Option<LogPath>, channel: Option<LogPath>)

  datatype Server = Server(transport: Transport, staticDir: Option<string>)

  datatype Proxy = Proxy(trusted: seq<string>, clientIpHeader: string)
  datatype Security = Security(wireProtocol: string, plainLocalhostOnly: bool, origins: seq<string>)

  /** Settings that only the root file decides; `sound` stands for their own validity checks. */
  datatype RootOnly = RootOnly(
    proxy: Proxy, security: Security, roots: seq<string>, allowedUsers: seq<string>, adminUsers: seq<string>,
    denyEdit: seq<string>, warnRead: seq<string>, trashDays: Option<nat>, maxStaging: nat, sound: bool)

  datatype AppConfig = AppConfig(
    server: Server, rootOnly: RootOnly, warnPercent: nat, features: Features, limits: Limits, audit: Audit,
    session: Session, helperSeconds: nat, search: Search, rate: RateLimit)

  // ---------- Patches ----------

  datatype FeaturesPatch = FeaturesPatch(
    saveText: Option<bool>, chmod: Option<bool>, extract: Option<bool>, delete: Option<bool>, chown: Option<bool>)

  datatype LimitsPatch = LimitsPatch(
    frame: Option<nat>, control: Option<nat>, decompressed: Option<nat>, chunk: Option<nat>, inFlight: Option<nat>,
    directoryPage: Option<nat>, defaultPage: Option<nat>, textEdit: Option<nat>, preview: Option<nat>)

  datatype SessionPatch = SessionPatch(
    cookie: Option<string>, idle: Option<nat>, lifetime: Option<nat>, secure: Option<bool>, sameSite: Option<string>)

  datatype RatePatch = RatePatch(maxFailures: Option<nat>, lockSeconds: Option<nat>)
  datatype SearchPatch = SearchPatch(maxDepth: Option<nat>, defaultResults: Option<nat>, maxResults: Option<nat>)

  datatype ProxyPatch = ProxyPatch(trusted: Option<seq<string>>, clientIpHeader: Option<string>)

  datatype SecurityPatch = SecurityPatch(
    wireProtocol: Option<string>, plainLocalhostOnly: Option<bool>, origins: Option<seq<string>>)

  /** Retention can be left alone, cleared, or set, in days or in hours. */
  datatype AuditPatch = AuditPatch(
    retentionHours: Option<Option<nat>>, path: Option<LogPath>, maxFileBytes: Option<nat>, maxArchives: Option<nat>,
    retentionDays: Option<Option<nat>>)

  datatype Patch = Patch(
    warnPercent: Option<nat>, proxy: Option<ProxyPatch>, audit: Option<AuditPatch>, features: Option<FeaturesPatch>,
    limits: Option<LimitsPatch>, trashDays: Option<Option<nat>>, roots: Option<seq<string>>,
    denyEdit: Option<seq<string>>, warnRead: Option<seq<string>>, staticDir: Option<Option<string>>,
    session: Option<SessionPatch>, security: Option<SecurityPatch>, rate: Option<RatePatch>,
    helperSeconds: Option<nat>, search: Option<SearchPatch>,
    adminUsers: Option<seq<string>>, allowedUsers: Option<seq<string>>)

  function Or<T>(o: Option<T>, old0: T): T {
    match o
    case Some(v) => v
    case None => old0
  }

  function ApplyFeatures(p: FeaturesPatch, t: Features): Features {
    Features(Or(p.saveText, t.saveText), Or(p.chmod, t.chmod), Or(p.extract, t.extract), Or(p.delete, t.delete),
             Or(p.chown, t.chown))
  }

  function ApplyLimits(p: LimitsPatch, t: Limits): Limits {
    Limits(Or(p.frame, t.frame), Or(p.control, t.control), Or(p.decompressed, t.decompressed), Or(p.chunk, t.chunk),
           Or(p.inFlight, t.inFlight), Or(p.directoryPage, t.directoryPage), Or(p.defaultPage, t.defaultPage),
           Or(p.textEdit, t.textEdit), Or(p.preview, t.preview))
  }

  function ApplySession(p: SessionPatch, t: Session): Session {
    Session(Or(p.cookie, t.cookie), Or(p.idle, t.idle), Or(p.lifetime, t.lifetime), Or(p.secure, t.secure),
            Or(p.sameSite, t.sameSite))
  }

  function ApplyRate(p: RatePatch, t: RateLimit): RateLimit {
    RateLimit(Or(p.maxFailures, t.maxFailures), Or(p.lockSeconds, t.lockSeconds))
  }

  function ApplySearch(p: SearchPatch, t: Search): Search {
    Search(Or(p.maxDepth, t.maxDepth), Or(p.defaultResults, t.defaultResults), Or(p.maxResults, t.maxResults))
  }

  function ApplyProxy(p: ProxyPatch, t: Proxy): Proxy {
    Proxy(Or(p.trusted, t.trusted), Or(p.clientIpHeader, t.clientIpHeader))
  }

  function ApplySecurity(p: SecurityPatch, t: Security): Security {
    Security(Or(p.wireProtocol, t.wireProtocol), Or(p.plainLocalhostOnly, t.plainLocalhostOnly), Or(p.origins, t.origins))
  }

  function NonZero(o: Option<nat>): Option<nat> {
    if o == Some(0) then None else o
  }

  /** The last retention form that the patch names wins and clears the other. */
  function AppliedAudit(p: AuditPatch, t: Audit): Audit {
    Audit(if p.retentionHours.Some? then NonZero(p.retentionHours.value)
          else if p.retentionDays.Some? then None else t.retentionHours,
          if p.path.Some? then p.path else t.path,
          Or(p.maxFileBytes, t.maxFileBytes), Or(p.maxArchives, t.maxArchives),
          if p.retentionHours.Some? then None
          else if p.retentionDays.Some? then NonZero(p.retentionDays.value) else t.retentionDays)
  }

  /** AuditPatch::apply_to overwrites the target's fields in this order. */
  method ApplyAudit(p: AuditPatch, target: Audit) returns (t: Audit)
    ensures t == AppliedAudit(p, target)
  {
    t := target;
    if p.path.Some? {
      t := t.(path := p.path);
    }
    if p.maxFileBytes.Some? {
      t := t.(maxFileBytes := p.maxFileBytes.value);
    }
    if p.maxArchives.Some? {
      t := t.(maxArchives := p.maxArchives.value);
    }
    if p.retentionDays.Some? {
      t := t.(retentionDays := NonZero(p.retentionDays.value), retentionHours := None);
    }
    if p.retentionHours.Some? {
      t := t.(retentionHours := NonZero(p.retentionHours.value), retentionDays := None);
    }
  }

  function AppliedRootOnly(p: Patch, t: RootOnly): RootOnly {
    t.(proxy := if p.proxy.Some? then ApplyProxy(p.proxy.value, t.proxy) else t.proxy,
       security := if p.security.Some? then ApplySecurity(p.security.value, t.security) else t.security,
       roots := Or(p.roots, t.roots),
       allowedUsers := Or(p.allowedUsers, t.allowedUsers), adminUsers := Or(p.adminUsers, t.adminUsers),
       denyEdit := Or(p.denyEdit, t.denyEdit), warnRead := Or(p.warnRead, t.warnRead),
       trashDays := Or(p.trashDays, t.trashDays))
  }

  function Applied(p: Patch, t: AppConfig): AppConfig {
    AppConfig(
      t.server.(staticDir := Or(p.staticDir, t.server.staticDir)),
      AppliedRootOnly(p, t.rootOnly),
      Or(p.warnPercent, t.warnPercent),
      if p.features.Some? then ApplyFeatures(p.features.value, t.features) else t.features,
      if p.limits.Some? then ApplyLimits(p.limits.value, t.limits) else t.limits,
      if p.audit.Some? then AppliedAudit(p.audit.value, t.audit) else t.audit,
      if p.session.Some? then ApplySession(p.session.value, t.session) else t.session,
      Or(p.helperSeconds, t.helperSeconds),
      if p.search.Some? then ApplySearch(p.search.value, t.search) else t.search,
      if p.rate.Some? then ApplyRate(p.rate.value, t.rate) else t.rate)
  }

  /** ConfigPatch::apply_to, section by section. */
  method Apply(p: Patch, target: AppConfig) returns (t: AppConfig)
    ensures t == Applied(p, target)
  {
    hide AppliedAudit, AppliedRootOnly, ApplyFeatures, ApplyLimits, ApplySession, ApplyRate, ApplySearch;
    t := target;
    if p.warnPercent.Some? {
      t := t.(warnPercent := p.warnPercent.value);
    }
    t := t.(rootOnly := AppliedRootOnly(p, t.rootOnly));
    if p.audit.Some? {
      var audit := ApplyAudit(p.audit.value, t.audit);
      t := t.(audit := audit);
    }
    if p.features.Some? {
      t := t.(features := ApplyFeatures(p.features.value, t.features));
    }
    if p.limits.Some? {
      t := t.(limits := ApplyLimits(p.limits.value, t.limits));
    }
    if p.staticDir.Some? {
      t := t.(server := t.server.(staticDir := p.staticDir.value));
    }
    if p.session.Some? {
      t := t.(session := ApplySession(p.session.value, t.session));
    }
    if p.rate.Some? {
      t := t.(rate := ApplyRate(p.rate.value, t.rate));
    }
    if p.helperSeconds.Some? {
      t := t.(helperSeconds := p.helperSeconds.value);
    }
    if p.search.Some? {
      t := t.(search := ApplySearch(p.search.value, t.search));
    }
  }

  // ---------- From a full value back to a patch ----------

  function FromFeatures(f: Features): FeaturesPatch {
    FeaturesPatch(Some(f.saveText), Some(f.chmod), Some(f.extract), Some(f.delete), Some(f.chown))
  }

  function FromLimits(l: Limits): LimitsPatch {
    LimitsPatch(Some(l.frame), Some(l.control), Some(l.decompressed), Some(l.chunk), Some(l.inFlight),
                Some(l.directoryPage), Some(l.defaultPage), Some(l.textEdit), Some(l.preview))
  }

  function FromRate(r: RateLimit): RatePatch {
    RatePatch(Some(r.maxFailures), Some(r.lockSeconds))
  }

  function FromSearch(s: Search): SearchPatch {
    SearchPatch(Some(s.maxDepth), Some(s.defaultResults), Some(s.maxResults))
  }

  function EffectiveHours(a: Audit): Option<nat> {
    if a.retentionDays.Some? then Some(a.retentionDays.value * 24) else a.retentionHours
  }

  /** The same settings with retention written in hours. */
  function InHours(c: AppConfig): AppConfig {
    c.(audit := c.audit.(retentionHours := EffectiveHours(c.audit), retentionDays := None))
  }

  // ---------- What patches mean ----------

  function Later<T>(first: Option<T>, second: Option<T>): Option<T> {
    if second.Some? then second else first
  }

  function MergeFeatures(p: FeaturesPatch, q: FeaturesPatch): FeaturesPatch {
    FeaturesPatch(Later(p.saveText, q.saveText), Later(p.chmod, q.chmod), Later(p.extract, q.extract), Later(p.delete, q.delete),
                  Later(p.chown, q.chown))
  }

  function MergeLimits(p: LimitsPatch, q: LimitsPatch): LimitsPatch {
    LimitsPatch(Later(p.frame, q.frame), Later(p.control, q.control), Later(p.decompressed, q.decompressed),
                Later(p.chunk, q.chunk), Later(p.inFlight, q.inFlight), Later(p.directoryPage, q.directoryPage),
                Later(p.defaultPage, q.defaultPage), Later(p.textEdit, q.textEdit), Later(p.preview, q.preview))
  }

  function MergeSession(p: SessionPatch, q: SessionPatch): SessionPatch {
    SessionPatch(Later(p.cookie, q.cookie), Later(p.idle, q.idle), Later(p.lifetime, q.lifetime), Later(p.secure, q.secure),
                 Later(p.sameSite, q.sameSite))
  }

  /** Both forms of retention are one setting: naming either replaces what was named before. */
  function MergeAudit(p: AuditPatch, q: AuditPatch): AuditPatch {
    var renamed := q.retentionHours.Some? || q.retentionDays.Some?;
    AuditPatch(if renamed then q.retentionHours else p.retentionHours, Later(p.path, q.path),
               Later(p.maxFileBytes, q.maxFileBytes), Later(p.maxArchives, q.maxArchives),
               if renamed then q.retentionDays else p.retentionDays)
  }

  function Merge(p: Patch, q: Patch): Patch {
    Patch(
      Later(p.warnPercent, q.warnPercent),
      if p.proxy.Some? && q.proxy.Some?
      then Some(ProxyPatch(Later(p.proxy.value.trusted, q.proxy.value.trusted),
                           Later(p.proxy.value.clientIpHeader, q.proxy.value.clientIpHeader)))
      else Later(p.proxy, q.proxy),
      if p.audit.Some? && q.audit.Some? then Some(MergeAudit(p.audit.value, q.audit.value)) else Later(p.audit, q.audit),
      if p.features.Some? && q.features.Some? then Some(MergeFeatures(p.features.value, q.features.value))
      else Later(p.features, q.features),
      if p.limits.Some? && q.limits.Some? then Some(MergeLimits(p.limits.value, q.limits.value)) else Later(p.limits, q.limits),
      Later(p.trashDays, q.trashDays), Later(p.roots, q.roots), Later(p.denyEdit, q.denyEdit), Later(p.warnRead, q.warnRead),
      Later(p.staticDir, q.staticDir),
      if p.session.Some? && q.session.Some? then Some(MergeSession(p.session.value, q.session.value))
      else Later(p.session, q.session),
      if p.security.Some? && q.security.Some?
      then Some(SecurityPatch(Later(p.security.value.wireProtocol, q.security.value.wireProtocol),
                              Later(p.security.value.plainLocalhostOnly, q.security.value.plainLocalhostOnly),
                              Later(p.security.value.origins, q.security.value.origins)))
      else Later(p.security, q.security),
      if p.rate.Some? && q.rate.Some?
      then Some(RatePatch(Later(p.rate.value.maxFailures, q.rate.value.maxFailures),
                          Later(p.rate.value.lockSeconds, q.rate.value.lockSeconds)))
      else Later(p.rate, q.rate),
      Later(p.helperSeconds, q.helperSeconds),
      if p.search.Some? && q.search.Some?
      then Some(SearchPatch(Later(p.search.value.maxDepth, q.search.value.maxDepth),
                            Later(p.search.value.defaultResults, q.search.value.defaultResults),
                            Later(p.search.value.maxResults, q.search.value.maxResults)))
      else Later(p.search, q.search),
      Later(p.adminUsers, q.adminUsers), Later(p.allowedUsers, q.allowedUsers))
  }

  /** Two patches in a row are one patch, in which what was named last wins and what neither names stays. */
  lemma {:induction false} PatchesMerge(p: Patch, q: Patch, t: AppConfig)
    ensures Applied(q, Applied(p, t)) == Applied(Merge(p, q), t)
  {
    hide AppliedRootOnly, AppliedAudit, ApplyFeatures, ApplyLimits, ApplySession, ApplyRate, ApplySearch, Merge;
    RootOnlyMerge(p, q, t.rootOnly);
    SectionsMerge(p, q, t);
    UsageMerges(p, q, t);
    PlainMerge(p, q);
  }

  lemma {:induction false} PlainMerge(p: Patch, q: Patch)
    ensures var m := Merge(p, q);
      && m.warnPercent == Later(p.warnPercent, q.warnPercent) && m.staticDir == Later(p.staticDir, q.staticDir)
      && m.helperSeconds == Later(p.helperSeconds, q.helperSeconds)
  {
  }

  lemma {:induction false} RootOnlyMerge(p: Patch, q: Patch, t: RootOnly)
    ensures AppliedRootOnly(q, AppliedRootOnly(p, t)) == AppliedRootOnly(Merge(p, q), t)
  {
    hide MergeFeatures, MergeLimits, MergeSession, MergeAudit;
  }

  /** Section by section: applying twice is applying the merged section once. */
  lemma {:induction false} SectionsMerge(p: Patch, q: Patch, t: AppConfig)
    ensures var m, u := Merge(p, q), Applied(p, t);
      && (if q.features.Some? then ApplyFeatures(q.features.value, u.features) else u.features) ==
         (if m.features.Some? then ApplyFeatures(m.features.value, t.features) else t.features)
      && (if q.limits.Some? then ApplyLimits(q.limits.value, u.limits) else u.limits) ==
         (if m.limits.Some? then ApplyLimits(m.limits.value, t.limits) else t.limits)
      && (if q.audit.Some? then AppliedAudit(q.audit.value, u.audit) else u.audit) ==
         (if m.audit.Some? then AppliedAudit(m.audit.value, t.audit) else t.audit)
  {
    hide AppliedRootOnly, AppliedAudit, MergeAudit, ApplyFeatures, MergeFeatures, ApplyLimits, MergeLimits, ApplySession,
      MergeSession, ApplyRate, ApplySearch;
    if p.audit.Some? && q.audit.Some? {
      AuditsMerge(p.audit.value, q.audit.value, t.audit);
    }
    if p.limits.Some? && q.limits.Some? {
      LimitsMerge(p.limits.value, q.limits.value, t.limits);
    }
    if p.features.Some? && q.features.Some? {
      FeaturesMerge(p.features.value, q.features.value, t.features);
    }
  }

  lemma {:induction false} UsageMerges(p: Patch, q: Patch, t: AppConfig)
    ensures var m, u := Merge(p, q), Applied(p, t);
      && (if q.session.Some? then ApplySession(q.session.value, u.session) else u.session) ==
         (if m.session.Some? then ApplySession(m.session.value, t.session) else t.session)
      && (if q.search.Some? then ApplySearch(q.search.value, u.search) else u.search) ==
         (if m.search.Some? then ApplySearch(m.search.value, t.search) else t.search)
      && (if q.rate.Some? then ApplyRate(q.rate.value, u.rate) else u.rate) ==
         (if m.rate.Some? then ApplyRate(m.rate.value, t.rate) else t.rate)
  {
    hide AppliedRootOnly, AppliedAudit, MergeAudit, ApplyFeatures, MergeFeatures, ApplyLimits, MergeLimits, ApplySession,
      MergeSession;
    if p.session.Some? && q.session.Some? {
      SessionsMerge(p.session.value, q.session.value, t.session);
    }
  }

  lemma {:induction false} FeaturesMerge(p: FeaturesPatch, q: FeaturesPatch, t: Features)
    ensures ApplyFeatures(q, ApplyFeatures(p, t)) == ApplyFeatures(MergeFeatures(p, q), t)
  {
  }

  lemma {:induction false} SessionsMerge(p: SessionPatch, q: SessionPatch, t: Session)
    ensures ApplySession(q, ApplySession(p, t)) == ApplySession(MergeSession(p, q), t)
  {
  }

  lemma {:induction false} AuditsMerge(p: AuditPatch, q: AuditPatch, t: Audit)
    ensures AppliedAudit(q, AppliedAudit(p, t)) == AppliedAudit(MergeAudit(p, q), t)
  {
  }

  lemma {:induction false} LimitsMerge(p: LimitsPatch, q: LimitsPatch, t: Limits)
    ensures ApplyLimits(q, ApplyLimits(p, t)) == ApplyLimits(MergeLimits(p, q), t)
  {
  }

  /** Every setting named, with the value of a whole configuration. */
  function FullPatch(c: AppConfig): Patch {
    var r := c.rootOnly;
    Patch(
      Some(c.warnPercent), Some(ProxyPatch(Some(r.proxy.trusted), Some(r.proxy.clientIpHeader))),
      Some(AuditPatch(if c.audit.retentionHours.Some? then Some(c.audit.retentionHours) else None, c.audit.path,
                      Some(c.audit.maxFileBytes), Some(c.audit.maxArchives), Some(c.audit.retentionDays))),
      Some(FromFeatures(c.features)), Some(FromLimits(c.limits)), Some(r.trashDays), Some(r.roots), Some(r.denyEdit),
      Some(r.warnRead), Some(c.server.staticDir),
      Some(SessionPatch(Some(c.session.cookie), Some(c.session.idle), Some(c.session.lifetime), Some(c.session.secure),
                        Some(c.session.sameSite))),
      Some(SecurityPatch(Some(r.security.wireProtocol), Some(r.security.plainLocalhostOnly), Some(r.security.origins))),
      Some(FromRate(c.rate)), Some(c.helperSeconds), Some(FromSearch(c.search)), Some(r.adminUsers), Some(r.allowedUsers))
  }

  /** A patch that names everything replaces everything but what no patch can name: listener, staging room and soundness. */
  lemma {:induction false} FullPatchReplaces(c: AppConfig, t: AppConfig)
    requires c.audit.path.Some? && (c.audit.retentionHours.None? || c.audit.retentionDays.None?)
    requires c.audit.retentionHours != Some(0) && c.audit.retentionDays != Some(0)
    ensures Applied(FullPatch(c), t) ==
      c.(server := c.server.(transport := t.server.transport),
         rootOnly := c.rootOnly.(maxStaging := t.rootOnly.maxStaging, sound := t.rootOnly.sound))
  {
  }

  const NOTHING: Patch := Patch(
    None, Some(ProxyPatch(None, None)), Some(AuditPatch(None, None, None, None, None)),
    Some(FeaturesPatch(None, None, None, None, None)),
    Some(LimitsPatch(None, None, None, None, None, None, None, None, None)), None, None, None, None, None,
    Some(SessionPatch(None, None, None, None, None)), Some(SecurityPatch(None, None, None)), Some(RatePatch(None, None)), None,
    Some(SearchPatch(None, None, None)), None, None)

  /** A patch that names nothing changes nothing, even with every section present. */
  lemma {:induction false} NothingChanges(t: AppConfig)
    ensures Applied(NOTHING, t) == t
  {
    assert ApplyLimits(NOTHING.limits.value, t.limits) == t.limits;
  }
}
