/** The service-writable overlay under the root ceiling, and the live configuration built from both. */
module RuntimeSettings {
  import opened Types
  import opened ConfigPatch

  datatype ConfigError = Validation | PermissionDenied | Missing | Internal

  datatype Outcome<+T> = Done(value: T) | Refused(error: ConfigError) {
    predicate IsFailure() {
      Refused?
    }

    function PropagateFailure<U>(): Outcome<U>
      requires Refused?
    {
      Refused(error)
    }

    function Extract(): T
      requires Done?
    {
      value
    }
  }

  // ---------- AppConfig::validate ----------

  const KIB: nat := 1024
  const MIB: nat := 1024 * 1024
  const CHUNK_HEADER: nat := 32

  predicate AuditOk(a: Audit) {
    && (a.retentionHours.Some? ==> 1 <= a.retentionHours.value <= 876000)
    && (a.retentionDays.Some? ==> 1 <= a.retentionDays.value <= 36500)
    && 1024 <= a.maxFileBytes <= 1024 * MIB && a.maxArchives <= 1000
    && (a.path.Some? ==> a.path.value.plain && a.path.value.name.Some?)
  }

  predicate LimitsOk(l: Limits) {
    && 1 <= l.chunk <= 256 * KIB && 1 <= l.frame <= MIB && 1 <= l.control <= l.frame
    && l.chunk + CHUNK_HEADER <= l.frame && 1 <= l.textEdit <= l.control / 2
    && 1 <= l.inFlight <= 64 * 1024 * MIB && 1 <= l.directoryPage <= 500 && 1 <= l.defaultPage <= l.directoryPage
  }

  predicate NumbersOk(c: AppConfig) {
    && 1 <= c.warnPercent <= 100 && 1 <= c.session.idle <= c.session.lifetime
    && 1 <= c.rate.maxFailures && 1 <= c.rate.lockSeconds && 1 <= c.helperSeconds <= 3600
    && 1 <= c.search.defaultResults <= c.search.maxResults <= 10000 && c.search.maxDepth <= 128
  }

  predicate DirectTls(t: Transport) {
    t.cert.Some? && t.key.Some?
  }

  predicate TransportOk(t: Transport, secureCookies: bool) {
    && (t.cert.Some? <==> t.key.Some?) && !(DirectTls(t) && t.behindProxy)
    && (t.requireTls == Some(true) ==> DirectTls(t) || t.behindProxy)
    && (DirectTls(t) || t.requireTls == Some(true) ==> secureCookies)
    && (t.channel.Some? ==> t.channel.value.plain && t.requireTls == Some(true))
  }

  predicate AppOk(c: AppConfig) {
    && AuditOk(c.audit) && LimitsOk(c.limits) && NumbersOk(c) && TransportOk(c.server.transport, c.session.secure)
    && c.rootOnly.sound && c.limits.inFlight <= c.rootOnly.maxStaging
  }

  // ---------- The ceiling ----------

  /** A patch from the service may touch overlay settings only. */
  predicate PatchAllowed(p: Patch) {
    && p.proxy.None? && p.security.None? && p.roots.None? && p.allowedUsers.None? && p.adminUsers.None?
    && p.staticDir.None? && p.denyEdit.None? && p.warnRead.None? && p.trashDays.None?
    && (p.session.Some? ==>
          p.session.value.cookie.None? && p.session.value.secure.None? && p.session.value.sameSite.None?)
  }

  function FeatureList(f: Features): seq<bool> {
    [f.saveText, f.chmod, f.extract, f.delete, f.chown]
  }

  function LimitList(l: Limits): seq<nat> {
    [l.frame, l.control, l.decompressed, l.chunk, l.inFlight, l.directoryPage, l.defaultPage, l.textEdit, l.preview]
  }

  /** A copy with every overlay setting put back to the root's value. */
  function Frozen(c: AppConfig, base: AppConfig): AppConfig {
    c.(warnPercent := base.warnPercent, features := base.features, limits := base.limits, audit := base.audit,
       session := c.session.(idle := base.session.idle, lifetime := base.session.lifetime),
       helperSeconds := base.helperSeconds, search := base.search, rate := base.rate)
  }

  predicate NoNewFeature(c: AppConfig, base: AppConfig) {
    forall i :: 0 <= i < 5 && FeatureList(c.features)[i] ==> FeatureList(base.features)[i]
  }

  predicate NoHigherLimit(c: AppConfig, base: AppConfig) {
    forall i :: 0 <= i < 9 ==> LimitList(c.limits)[i] <= LimitList(base.limits)[i]
  }

  predicate NoLooser(c: AppConfig, base: AppConfig) {
    && c.session.idle <= base.session.idle && c.session.lifetime <= base.session.lifetime
    && c.helperSeconds <= base.helperSeconds && c.search.maxDepth <= base.search.maxDepth
    && c.search.defaultResults <= base.search.defaultResults && c.search.maxResults <= base.search.maxResults
    && c.rate.maxFailures <= base.rate.maxFailures && c.rate.lockSeconds >= base.rate.lockSeconds
    && c.audit.maxFileBytes <= base.audit.maxFileBytes && c.audit.maxArchives <= base.audit.maxArchives
  }

  predicate KeptNoLonger(c: AppConfig, base: AppConfig) {
    EffectiveHours(base.audit).Some? ==>
      && EffectiveHours(c.audit).Some? && EffectiveHours(c.audit).value <= EffectiveHours(base.audit).value
  }

  /** The root chooses the log directory; the panel may choose a file name within it. */
  predicate SameDirectory(path: Option<LogPath>, base: Option<LogPath>) {
    path == base ||
    (base.Some? && base.value.parent.Some? && path.Some? && path.value.parent == base.value.parent && path.value.name.Some?)
  }

  predicate UnderCeiling(c: AppConfig, base: AppConfig) {
    && Frozen(c, base) == base && NoNewFeature(c, base) && NoHigherLimit(c, base) && NoLooser(c, base)
    && KeptNoLonger(c, base) && SameDirectory(c.audit.path, base.audit.path)
  }

  function Validated(c: AppConfig, base: AppConfig): Outcome<()> {
    if !AppOk(c) then Refused(Validation) else if !UnderCeiling(c, base) then Refused(PermissionDenied) else Done(())
  }

  /** RuntimeSettings::validate, with its loops over feature flags and limits. */
  method Validate(c: AppConfig, base: AppConfig) returns (r: Outcome<()>)
    ensures r == Validated(c, base)
  {
    hide AppOk, KeptNoLonger, NoLooser, SameDirectory;
    if !AppOk(c) {
      return Refused(Validation);
    }
    var immutable := c.(warnPercent := base.warnPercent);
    immutable := immutable.(features := base.features, limits := base.limits, audit := base.audit);
    immutable := immutable.(session := immutable.session.(idle := base.session.idle, lifetime := base.session.lifetime));
    immutable := immutable.(helperSeconds := base.helperSeconds, search := base.search, rate := base.rate);
    if immutable != base {
      return Refused(PermissionDenied);
    }
    var requested, granted, i := FeatureList(c.features), FeatureList(base.features), 0;
    while i < |requested|
      invariant 0 <= i <= 5 && forall n :: 0 <= n < i && requested[n] ==> granted[n]
    {
      if requested[i] && !granted[i] {
        assert !NoNewFeature(c, base);
        return Refused(PermissionDenied);
      }
      i := i + 1;
    }
    var asked, caps := LimitList(c.limits), LimitList(base.limits);
    i := 0;
    while i < |asked|
      invariant 0 <= i <= 9 && forall n :: 0 <= n < i ==> asked[n] <= caps[n]
    {
      if asked[i] > caps[i] {
        assert !NoHigherLimit(c, base);
        return Refused(PermissionDenied);
      }
      i := i + 1;
    }
    if !NoLooser(c, base) || !KeptNoLonger(c, base) || !SameDirectory(c.audit.path, base.audit.path) {
      return Refused(PermissionDenied);
    }
    r := Done(());
  }

  // ---------- The overlay file ----------

  datatype OverlayFile = NoOverlay | Unreadable | Saved(patch: Patch)

  const NO_PATCH: Patch :=
    Patch(None, None, None, None, None, None, None, None, None, None, None, None, None, None, None, None, None)

  /** RuntimeSettings::project, with a cleared retention spelled as zero hours. */
  function Projected(c: AppConfig): Patch {
    NO_PATCH.(
      warnPercent := Some(c.warnPercent), features := Some(FromFeatures(c.features)),
      limits := Some(FromLimits(c.limits)),
      audit := Some(AuditPatch(Some(Some(ValueOr(EffectiveHours(c.audit), 0))), c.audit.path,
                               Some(c.audit.maxFileBytes), Some(c.audit.maxArchives), None)),
      session := Some(SessionPatch(None, Some(c.session.idle), Some(c.session.lifetime), None, None)),
      rate := Some(FromRate(c.rate)), helperSeconds := Some(c.helperSeconds), search := Some(FromSearch(c.search)))
  }

  function Read(overlay: OverlayFile, base: AppConfig): Outcome<AppConfig> {
    match overlay
    case NoOverlay => Done(base)
    case Unreadable => Refused(Validation)
    case Saved(patch) =>
      if !PatchAllowed(patch) then Refused(PermissionDenied) else
      var c := Applied(patch, base);
      var _ :- Validated(c, base);
      Done(c)
  }

  /** The projection of a setting under its ceiling reads back as that setting, with retention in hours. */
  lemma {:induction false} ProjectionReadsBack(c: AppConfig, base: AppConfig)
    requires AppOk(c) && UnderCeiling(c, base) && base.audit.path.Some?
    ensures Applied(Projected(c), base) == InHours(c)
    ensures Read(Saved(Projected(c)), base) == Done(InHours(c))
  {
    hide LimitsOk, NumbersOk, TransportOk, NoNewFeature, NoHigherLimit, KeptNoLonger;
    AppliedBack(c, base);
    HoursStayValid(c, base);
  }

  lemma {:induction false} AppliedBack(c: AppConfig, base: AppConfig)
    requires AuditOk(c.audit) && Frozen(c, base) == base && c.audit.path.Some?
    ensures Applied(Projected(c), base) == InHours(c)
  {
    var p := Projected(c);
    assert ApplyFeatures(FromFeatures(c.features), base.features) == c.features;
    assert ApplyLimits(FromLimits(c.limits), base.limits) == c.limits;
    assert AppliedRootOnly(p, base.rootOnly) == c.rootOnly;
  }

  /** 36500 days are 876000 hours, so writing days as hours keeps the settings valid. */
  lemma {:induction false} HoursStayValid(c: AppConfig, base: AppConfig)
    requires AppOk(c) && UnderCeiling(c, base)
    ensures AppOk(InHours(c)) && UnderCeiling(InHours(c), base)
  {
  }

  // ---------- The ceiling as an order ----------

  /** What a setting under the ceiling can never do more of than the root file allows. */
  lemma {:induction false} NeverLooser(c: AppConfig, base: AppConfig)
    requires UnderCeiling(c, base)
    ensures c.server == base.server && c.rootOnly == base.rootOnly
    ensures c.session.secure == base.session.secure && c.session.cookie == base.session.cookie
    ensures c.session.idle <= base.session.idle && c.session.lifetime <= base.session.lifetime
    ensures c.features.chown ==> base.features.chown
    ensures c.features.delete ==> base.features.delete
    ensures c.limits.inFlight <= base.limits.inFlight && c.limits.frame <= base.limits.frame
    ensures c.rate.maxFailures <= base.rate.maxFailures && base.rate.lockSeconds <= c.rate.lockSeconds
    ensures c.audit.maxFileBytes <= base.audit.maxFileBytes && c.audit.maxArchives <= base.audit.maxArchives
    ensures EffectiveHours(base.audit).Some? ==>
      EffectiveHours(c.audit).Some? && EffectiveHours(c.audit).value <= EffectiveHours(base.audit).value
  {
    assert FeatureList(c.features)[4] == c.features.chown && FeatureList(c.features)[3] == c.features.delete;
    assert LimitList(c.limits)[4] == c.limits.inFlight && LimitList(c.limits)[0] == c.limits.frame;
  }

  lemma {:induction false} CeilingTransitive(a: AppConfig, b: AppConfig, c: AppConfig)
    requires UnderCeiling(a, b) && UnderCeiling(b, c)
    ensures UnderCeiling(a, c)
  {
    hide EffectiveHours;
    forall i | 0 <= i < 9 ensures LimitList(a.limits)[i] <= LimitList(c.limits)[i] {
      assert LimitList(b.limits)[i] <= LimitList(c.limits)[i];
    }
  }

  /** Settings that allow each other are the same, but for the warning threshold, the log's name and the retention's unit. */
  lemma {:induction false} CeilingAntisymmetric(a: AppConfig, b: AppConfig)
    requires UnderCeiling(a, b) && UnderCeiling(b, a)
    ensures InHours(a).(warnPercent := b.warnPercent, audit := InHours(a).audit.(path := b.audit.path)) == InHours(b)
  {
    hide EffectiveHours;
    var f, g := FeatureList(a.features), FeatureList(b.features);
    assert forall i :: 0 <= i < 5 ==> f[i] == g[i];
    assert f[0] == g[0] && f[1] == g[1] && f[2] == g[2] && f[3] == g[3] && f[4] == g[4];
    var l, m := LimitList(a.limits), LimitList(b.limits);
    assert forall i :: 0 <= i < 9 ==> l[i] <= m[i] && m[i] <= l[i];
    assert l[0] == m[0] && l[1] == m[1] && l[2] == m[2] && l[3] == m[3] && l[4] == m[4];
    assert l[5] == m[5] && l[6] == m[6] && l[7] == m[7] && l[8] == m[8];
  }
}
