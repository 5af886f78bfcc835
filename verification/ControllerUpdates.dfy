/** app/usecases/controllerparams: which settings an update writes back to the file, and why
    rebuilding from the file then gives the controller that is running. */
module ControllerUpdates {
  import opened Numbers
  import opened FilterSignal
  import opened Control
  import opened YamlTree
  import opened Entities
  import opened Configuration
  import opened Controllers
  import Pid
  import Smith
  import Predictor
  import PidProperties
  import SmithProperties

  /** sectionFor. */
  function SectionFor(controllerType: string): string {
    if controllerType == "smith" then SMITH else PID
  }

  /** A setting counts as asked for if it was given; the two filter settings go together. */
  predicate Asked(requested: ControllerParams, k: Key) {
    || Field(requested, k).Some?
    || (k in {FilterType, FilterSize} && (requested.filterType.Some? || requested.filterSize.Some?))
  }

  /** What is written back: a setting that was asked for and that the controller has. */
  predicate Written(requested: ControllerParams, effective: ControllerParams, k: Key) {
    Asked(requested, k) && Field(effective, k).Some?
  }

  function Qualified(section: string, k: Key): string {
    section + "." + Name(k)
  }

  /** A map of updates holds exactly the written settings, with their effective values. */
  ghost predicate Holds(updates: map<string, Scalar>, section: string,
                        requested: ControllerParams, effective: ControllerParams) {
    && (forall name :: name in updates ==> exists k :: name == Qualified(section, k))
    && (forall k :: Qualified(section, k) in updates <==> Written(requested, effective, k))
    && (forall k :: Written(requested, effective, k) ==> updates[Qualified(section, k)] == Field(effective, k).value)
  }

  lemma QualifiedDiffer(section: string, a: Key, b: Key)
    ensures Qualified(section, a) == Qualified(section, b) <==> a == b
  {
    NamesDiffer(a, b);
    assert Qualified(section, a)[|section| + 1..] == Name(a);
    assert Qualified(section, b)[|section| + 1..] == Name(b);
  }

  // What the settings read once written back

  lemma QualifiedPath(section: string, k: Key)
    requires '.' !in section
    ensures Split(Qualified(section, k)) == [section, Name(k)] == [section, Tag(k)]
    ensures Join([section, Name(k)]) == Qualified(section, k)
  {
    KeyOfName(k);
    TagIsName(k);
    SplitSectionKey(section, Name(k));
    JoinSplit(Qualified(section, k));
  }

  lemma HeldArePrefixFree(updates: map<string, Scalar>, section: string,
                          requested: ControllerParams, effective: ControllerParams)
    requires '.' !in section && Holds(updates, section, requested, effective)
    ensures PrefixFree(updates.Keys)
  {
    forall a, b | a in updates && b in updates && a != b ensures !Related(Split(a), Split(b)) {
      var j, k :| a == Qualified(section, j) && b == Qualified(section, k);
      QualifiedPath(section, j);
      QualifiedPath(section, k);
      NamesDiffer(j, k);
    }
  }

  /** After an update, each setting of each section reads as written back, or as before. */
  ghost predicate Overlaid(before: Tree, after: Tree, section: string,
                           requested: ControllerParams, effective: ControllerParams) {
    forall sec, k :: '.' !in sec ==>
      Setting(after, sec, k)
      == if sec == section && Written(requested, effective, k) then Field(effective, k) else Setting(before, sec, k)
  }

  lemma SettingsAfter(file: Tree, updates: map<string, Scalar>, order: seq<string>,
                      section: string, requested: ControllerParams, effective: ControllerParams)
    requires WellFormed(file) && '.' !in section
    requires Holds(updates, section, requested, effective) && Enumerates(order, updates.Keys)
    ensures Overlaid(file, SetAll(file, updates, order), section, requested, effective)
    ensures section != "metrics_poller" ==>
      Read(SetAll(file, updates, order), ["metrics_poller", "interval_ms"]) == Read(file, ["metrics_poller", "interval_ms"])
  {
    HeldArePrefixFree(updates, section, requested, effective);
    forall sec, k | '.' !in sec
      ensures Setting(SetAll(file, updates, order), sec, k)
           == if sec == section && Written(requested, effective, k) then Field(effective, k) else Setting(file, sec, k)
    {
      TagIsName(k);
      ReadAfterSetAll(file, updates, order, [sec, Name(k)]);
      ExpectedSetting(Setting(file, sec, k), updates, section, requested, effective, sec, k);
    }
    var poll := ["metrics_poller", "interval_ms"];
    ReadAfterSetAll(file, updates, order, poll);
    if section != poll[0] {
      OtherSection(Read(file, poll), updates, section, requested, effective, poll);
    }
  }

  lemma ExpectedSetting(before: Option<Scalar>, updates: map<string, Scalar>, section: string,
                        requested: ControllerParams, effective: ControllerParams, sec: string, k: Key)
    requires '.' !in section && '.' !in sec && Holds(updates, section, requested, effective)
    ensures Expected(before, updates, [sec, Name(k)])
         == if sec == section && Written(requested, effective, k) then Field(effective, k) else before
  {
    hide Split, Join, Name, Field, Asked;
    QualifiedPath(sec, k);
    QualifiedPath(section, k);
    forall name | name in updates
      ensures Related(Split(name), [sec, Name(k)]) ==> sec == section && name == Qualified(section, k)
    {
      var j :| name == Qualified(section, j);
      QualifiedPath(section, j);
      PairsRelated(section, Name(j), sec, Name(k));
      NamesDiffer(j, k);
    }
  }

  lemma PairsRelated(a: string, b: string, c: string, d: string)
    ensures Related([a, b], [c, d]) <==> a == c && b == d
  {
    assert [a, b][0] == a && [a, b][1] == b && [c, d][0] == c && [c, d][1] == d;
  }

  lemma OtherSection(before: Option<Scalar>, updates: map<string, Scalar>, section: string,
                     requested: ControllerParams, effective: ControllerParams, q: Path)
    requires '.' !in section && |q| == 2 && q[0] != section && Holds(updates, section, requested, effective)
    ensures Expected(before, updates, q) == before
  {
    forall name | name in updates ensures !Related(Split(name), q) {
      var j :| name == Qualified(section, j);
      QualifiedPath(section, j);
    }
    if Join(q) in updates {
      assert !Related(Split(Join(q)), q);
    }
  }

  // The round trip

  /** Rebuilding the active controller from the file gives its current parameters. */
  predicate InSync(settings: Settings, file: Tree) {
    match Load(file)
    case None => false
    case Some(cfg) =>
      match Built(cfg, settings.Type())
      case Err(_) => false
      case Ok(c) => c.Settings() == settings
  }

  predicate FilterAsked(u: ControllerParams) {
    u.filterType.Some? || u.filterSize.Some?
  }

  function Kept<T>(written: bool, now: T, before: T): T {
    if written then now else before
  }

  /** The pid section once an update to a PID with effective parameters n has been written back. */
  function PidSectionAfter(s: PidSection, u: ControllerParams, n: Pid.PidParams, feedforward: bool): PidSection {
    PidSection(
      Kept(u.kp.Some?, n.kp, s.kp), Kept(u.ki.Some?, n.ki, s.ki), Kept(u.kd.Some?, n.kd, s.kd),
      Kept(u.min.Some?, n.limits.min, s.min), Kept(u.max.Some?, n.limits.max, s.max),
      Kept(u.iClamp.Some?, n.limits.iClamp, s.iClamp), Kept(u.setpoint.Some?, n.setpoint, s.setpoint),
      Kept(u.ffGain.Some? && feedforward, n.ffGain, s.ffGain), s.filterTau,
      Kept(FilterAsked(u), n.setpointFilter.kind, s.filterType),
      Kept(FilterAsked(u), n.setpointFilter.size, s.filterSize))
  }

  function SmithSectionAfter(s: SmithSection, u: ControllerParams, n: Smith.SmithParams): SmithSection {
    SmithSection(
      Kept(u.kp.Some?, n.kp, s.kp), Kept(u.ki.Some?, n.ki, s.ki),
      Kept(u.min.Some?, n.limits.min, s.min), Kept(u.max.Some?, n.limits.max, s.max),
      Kept(u.iClamp.Some?, n.limits.iClamp, s.iClamp), Kept(u.setpoint.Some?, n.setpoint, s.setpoint),
      Kept(u.modelK.Some?, n.model.k, s.modelK), Kept(u.modelTau.Some?, n.model.tau, s.modelTau),
      Kept(u.modelTheta.Some?, n.model.theta, s.modelTheta), Kept(u.sampleSeconds.Some?, n.sampleSeconds, s.sampleSeconds),
      Kept(FilterAsked(u), n.setpointFilter.kind, s.filterType),
      Kept(FilterAsked(u), n.setpointFilter.size, s.filterSize))
  }

  /** What one setting reads after an update: the effective value x, if it was written. */
  lemma RealAfter(before: Tree, after: Tree, section: string, u: ControllerParams, n: ControllerParams,
                  k: Key, default: real, x: Option<real>, was: real)
    requires Overlaid(before, after, section, u, n) && '.' !in section
    requires Field(n, k) == Measure(x) && AsReal(Setting(before, section, k), default) == Some(was)
    ensures AsReal(Setting(after, section, k), default) == Some(if Asked(u, k) then Assign(was, x) else was)
  {
    hide Setting, Field, Asked;
  }

  lemma NumberAfter(before: Tree, after: Tree, section: string, u: ControllerParams, n: ControllerParams,
                    k: Key, default: real, x: Option<Number>, was: Number)
    requires Overlaid(before, after, section, u, n) && '.' !in section
    requires Field(n, k) == Quantity(x) && AsNumber(Setting(before, section, k), default) == Some(was)
    ensures AsNumber(Setting(after, section, k), default) == Some(if Asked(u, k) then Assign(was, x) else was)
  {
    hide Setting, Field, Asked;
  }

  lemma FilterAfter(before: Tree, after: Tree, section: string, u: ControllerParams, n: ControllerParams,
                    kind: string, size: int)
    requires Overlaid(before, after, section, u, n) && '.' !in section
    requires n.filterType.Some? && n.filterSize.Some?
    requires AsText(Setting(before, section, FilterType), "") == Some(kind)
    requires AsInt(Setting(before, section, FilterSize), 0) == Some(size)
    ensures AsText(Setting(after, section, FilterType), "") == Some(Kept(FilterAsked(u), n.filterType.value, kind))
    ensures AsInt(Setting(after, section, FilterSize), 0) == Some(Kept(FilterAsked(u), n.filterSize.value, size))
  {
    hide Setting;
  }

  lemma LoadPidAfter(before: Tree, after: Tree, u: ControllerParams, n: Pid.PidParams, feedforward: bool)
    requires Overlaid(before, after, PID, u, PidAnswer(n, feedforward)) && LoadPid(before).Some?
    ensures LoadPid(after) == Some(PidSectionAfter(LoadPid(before).value, u, n, feedforward))
  {
    hide Overlaid, Setting, AsReal, AsNumber, AsText, AsInt;
    var s, e := LoadPid(before).value, PidAnswer(n, feedforward);
    RealAfter(before, after, PID, u, e, Kp, 1.0, e.kp, s.kp);
    RealAfter(before, after, PID, u, e, Ki, 0.1, e.ki, s.ki);
    RealAfter(before, after, PID, u, e, Kd, 0.01, e.kd, s.kd);
    RealAfter(before, after, PID, u, e, Minimum, 1.0, e.min, s.min);
    RealAfter(before, after, PID, u, e, Maximum, 100.0, e.max, s.max);
    RealAfter(before, after, PID, u, e, IClamp, 100.0, e.iClamp, s.iClamp);
    NumberAfter(before, after, PID, u, e, Setpoint, 70.0, e.setpoint, s.setpoint);
    RealAfter(before, after, PID, u, e, FfGain, 0.0, e.ffGain, s.ffGain);
    RealAfter(before, after, PID, u, e, FilterTau, 0.0, None, s.filterTau);
    FilterAfter(before, after, PID, u, e, s.filterType, s.filterSize);
  }

  lemma SmithModelAfter(before: Tree, after: Tree, u: ControllerParams, n: Smith.SmithParams)
    requires Overlaid(before, after, SMITH, u, SmithAnswer(n)) && LoadSmith(before).Some?
    ensures var s := LoadSmith(before).value;
      && AsNumber(Setting(after, SMITH, ModelK), 1.0) == Some(Kept(u.modelK.Some?, n.model.k, s.modelK))
      && AsNumber(Setting(after, SMITH, ModelTau), 1.0) == Some(Kept(u.modelTau.Some?, n.model.tau, s.modelTau))
      && AsNumber(Setting(after, SMITH, ModelTheta), 0.0) == Some(Kept(u.modelTheta.Some?, n.model.theta, s.modelTheta))
      && AsNumber(Setting(after, SMITH, SampleSeconds), 1.0)
         == Some(Kept(u.sampleSeconds.Some?, n.sampleSeconds, s.sampleSeconds))
  {
    hide Overlaid, Setting, AsReal, AsNumber, AsText, AsInt;
    var s, e := LoadSmith(before).value, SmithAnswer(n);
    NumberAfter(before, after, SMITH, u, e, ModelK, 1.0, e.modelK, s.modelK);
    NumberAfter(before, after, SMITH, u, e, ModelTau, 1.0, e.modelTau, s.modelTau);
    NumberAfter(before, after, SMITH, u, e, ModelTheta, 0.0, e.modelTheta, s.modelTheta);
    NumberAfter(before, after, SMITH, u, e, SampleSeconds, 1.0, e.sampleSeconds, s.sampleSeconds);
  }

  lemma LoadSmithAfter(before: Tree, after: Tree, u: ControllerParams, n: Smith.SmithParams)
    requires Overlaid(before, after, SMITH, u, SmithAnswer(n)) && LoadSmith(before).Some?
    ensures LoadSmith(after) == Some(SmithSectionAfter(LoadSmith(before).value, u, n))
  {
    hide Overlaid, Setting, AsReal, AsNumber, AsText, AsInt;
    var s, e := LoadSmith(before).value, SmithAnswer(n);
    RealAfter(before, after, SMITH, u, e, Kp, 1.0, e.kp, s.kp);
    RealAfter(before, after, SMITH, u, e, Ki, 0.1, e.ki, s.ki);
    RealAfter(before, after, SMITH, u, e, Minimum, 0.0, e.min, s.min);
    RealAfter(before, after, SMITH, u, e, Maximum, 100.0, e.max, s.max);
    RealAfter(before, after, SMITH, u, e, IClamp, 100.0, e.iClamp, s.iClamp);
    NumberAfter(before, after, SMITH, u, e, Setpoint, 70.0, e.setpoint, s.setpoint);
    SmithModelAfter(before, after, u, n);
    FilterAfter(before, after, SMITH, u, e, s.filterType, s.filterSize);
  }

  /** A filter that was asked for is written as a type and a size, which silences the older tau
      setting; one that was not is still given by whatever gave it before. */
  lemma FiltersAgree(s: PidSection, s': PidSection, intervalMs: int, u: ControllerParams, f: Spec, f': Spec)
    requires Normalize(SetpointFilter(s, intervalMs)) == Ok(f)
    requires Normalize(Spec(Assign(f.kind, u.filterType), Assign(f.size, u.filterSize))) == Ok(f')
    requires s'.filterTau == s.filterTau
    requires s'.filterType == Kept(FilterAsked(u), f'.kind, s.filterType)
    requires s'.filterSize == Kept(FilterAsked(u), f'.size, s.filterSize)
    ensures Normalize(SetpointFilter(s', intervalMs)) == Ok(f')
  {
    hide EquivalentSamples;
  }

  /** Merging an update into the parameters and normalising them, against writing the effective
      values of what was asked for into the section and rebuilding. */
  lemma PidSectionsAgree(cfg: Config, p: Pid.PidParams, u: ControllerParams, n: Pid.PidParams, feedforward: bool)
    requires PidFromConfig(cfg, feedforward).Normalized() == Ok(p)
    requires PidMerged(p, u, feedforward).Normalized() == Ok(n)
    ensures PidFromConfig(cfg.(pid := PidSectionAfter(cfg.pid, u, n, feedforward)), feedforward).Normalized() == Ok(n)
  {
    hide Normalize, SetpointFilter;
    FiltersAgree(cfg.pid, PidSectionAfter(cfg.pid, u, n, feedforward), cfg.intervalMs, u,
                 p.setpointFilter, n.setpointFilter);
  }

  lemma SmithSectionsAgree(cfg: Config, p: Smith.SmithParams, u: ControllerParams, n: Smith.SmithParams)
    requires SmithFromConfig(cfg).Normalized() == Ok(p)
    requires SmithMerged(p, u).Normalized() == Ok(n)
    ensures SmithFromConfig(cfg.(smith := SmithSectionAfter(cfg.smith, u, n))).Normalized() == Ok(n)
  {
    hide Normalize, Predictor.Model.ValidFor;
    SmithFiltersAgree(cfg.smith, SmithSectionAfter(cfg.smith, u, n), u, p.setpointFilter, n.setpointFilter);
  }

  lemma SmithFiltersAgree(s: SmithSection, s': SmithSection, u: ControllerParams, f: Spec, f': Spec)
    requires Normalize(Spec(s.filterType, s.filterSize)) == Ok(f)
    requires Normalize(Spec(Assign(f.kind, u.filterType), Assign(f.size, u.filterSize))) == Ok(f')
    requires s'.filterType == Kept(FilterAsked(u), f'.kind, s.filterType)
    requires s'.filterSize == Kept(FilterAsked(u), f'.size, s.filterSize)
    ensures Normalize(Spec(s'.filterType, s'.filterSize)) == Ok(f')
  {
  }

  /** What a stored update leaves in the file: a setting that was asked for and that the controller has
      reads as in effect, the two filter settings as soon as either was asked for; every other
      setting, of any section, reads as before. */
  lemma OnlyWhatWasAskedIsWritten(now: Settings, u: ControllerParams, file: Tree,
                                  updates: map<string, Scalar>, order: seq<string>, section: string, k: Key)
    requires WellFormed(file) && '.' !in section
    requires WritesBack(updates, u, now) && Enumerates(order, updates.Keys)
    ensures var asked := Field(u, k).Some? || (OfFilter(k) && (u.filterType.Some? || u.filterSize.Some?));
      Setting(SetAll(file, updates, order), section, k)
      == if section == (if now.SmithSettings? then "smith" else "pid") && asked && Field(now.Answer(), k).Some? then
           Field(now.Answer(), k)
         else
           Setting(file, section, k)
  {
    hide Holds, Setting, Field, Settings.Answer;
    SectionOf(now);
    SettingsAfter(file, updates, order, SectionFor(now.Type()), u, now.Answer());
  }

  lemma SectionOf(now: Settings)
    ensures SectionFor(now.Type()) == if now.SmithSettings? then "smith" else "pid"
  {
  }

  predicate SameInterval(before: Tree, after: Tree) {
    Read(after, ["metrics_poller", "interval_ms"]) == Read(before, ["metrics_poller", "interval_ms"])
  }

  lemma OtherPidSame(before: Tree, after: Tree, u: ControllerParams, n: ControllerParams)
    requires Overlaid(before, after, SMITH, u, n)
    ensures LoadPid(after) == LoadPid(before)
  {
    hide AsReal, AsNumber, AsText, AsInt, Setting, Written;
  }

  lemma OtherSmithSame(before: Tree, after: Tree, u: ControllerParams, n: ControllerParams)
    requires Overlaid(before, after, PID, u, n)
    ensures LoadSmith(after) == LoadSmith(before)
  {
    hide AsReal, AsNumber, AsText, AsInt, Setting, Written;
  }

  lemma PidInSync(pid: Pid.PidState, feedforward: bool, u: ControllerParams, file: Tree, after: Tree)
    requires pid.Valid() && InSync(PidSettings(pid.params, feedforward), file) && SameInterval(file, after)
    requires PidMerged(pid.params, u, feedforward).Normalized().Ok?
    requires Overlaid(file, after, PID, u, PidAnswer(PidMerged(pid.params, u, feedforward).Normalized().value, feedforward))
    ensures InSync(PidSettings(PidMerged(pid.params, u, feedforward).Normalized().value, feedforward), after)
  {
    hide LoadPid, LoadSmith, Overlaid, Pid.PidParams.Normalized, PidMerged, PidAnswer, PidFromConfig, PidSectionAfter;
    var n := PidMerged(pid.params, u, feedforward).Normalized().value;
    PidSectionsAgree(Load(file).value, pid.params, u, n, feedforward);
    LoadPidAfter(file, after, u, n, feedforward);
    OtherSmithSame(file, after, u, PidAnswer(n, feedforward));
  }

  lemma SmithInSync(smith: Smith.SmithState, u: ControllerParams, file: Tree, after: Tree)
    requires smith.Valid() && InSync(SmithSettings(smith.params), file) && SameInterval(file, after)
    requires SmithMerged(smith.params, u).Normalized().Ok?
    requires Overlaid(file, after, SMITH, u, SmithAnswer(SmithMerged(smith.params, u).Normalized().value))
    ensures InSync(SmithSettings(SmithMerged(smith.params, u).Normalized().value), after)
  {
    hide LoadPid, LoadSmith, Overlaid, Smith.SmithParams.Normalized;
    hide SmithMerged, SmithAnswer, SmithFromConfig, SmithSectionAfter;
    var n := SmithMerged(smith.params, u).Normalized().value;
    SmithSectionsAgree(Load(file).value, smith.params, u, n);
    LoadSmithAfter(file, after, u, n);
    OtherPidSame(file, after, u, SmithAnswer(n));
  }

  /** A step controller only has its output, kept under pid.max. */
  lemma LoadPidAfterStep(before: Tree, after: Tree, u: ControllerParams, output: real)
    requires Overlaid(before, after, PID, u, StepSettings(output).Answer()) && LoadPid(before).Some?
    ensures LoadPid(after) == Some(LoadPid(before).value.(max := Kept(u.max.Some?, output, LoadPid(before).value.max)))
  {
    hide Overlaid, Setting, AsReal, AsNumber, AsText, AsInt;
    var e, s := StepSettings(output).Answer(), LoadPid(before).value;
    RealAfter(before, after, PID, u, e, Maximum, 100.0, e.max, s.max);
    forall k: Key | k != Maximum ensures Setting(after, PID, k) == Setting(before, PID, k) {
      SettingKept(before, after, PID, u, e, k);
    }
  }

  lemma StepInSync(output: real, u: ControllerParams, file: Tree, after: Tree)
    requires InSync(StepSettings(output), file) && SameInterval(file, after)
    requires Overlaid(file, after, PID, u, StepSettings(Assign(output, u.max)).Answer())
    ensures InSync(StepSettings(Assign(output, u.max)), after)
  {
    hide Overlaid, LoadPid, LoadSmith;
    LoadPidAfterStep(file, after, u, Assign(output, u.max));
    OtherSmithSame(file, after, u, StepSettings(Assign(output, u.max)).Answer());
  }

  lemma SettingKept(before: Tree, after: Tree, section: string, u: ControllerParams, n: ControllerParams, k: Key)
    requires Overlaid(before, after, section, u, n) && '.' !in section && Field(n, k).None?
    ensures Setting(after, section, k) == Setting(before, section, k)
  {
    hide Setting, Field, Asked;
  }

  /** The round trip. If rebuilding from the file gives the active controller's parameters, it
      still does after any accepted update, in whatever order the settings are stored. */
  lemma UpdateKeepsInSync(c: ControllerState, u: ControllerParams, file: Tree,
                          updates: map<string, Scalar>, order: seq<string>)
    requires c.Valid() && WellFormed(file) && InSync(c.Settings(), file) && Tuned(c, u).1.None?
    requires WritesBack(updates, u, Tuned(c, u).0.Settings()) && Enumerates(order, updates.Keys)
    ensures WellFormed(SetAll(file, updates, order))
    ensures InSync(Tuned(c, u).0.Settings(), SetAll(file, updates, order))
  {
    hide InSync, Overlaid, Holds, PidMerged, SmithMerged, PidAnswer, SmithAnswer, Tuned;
    hide Pid.PidParams.Normalized, Smith.SmithParams.Normalized;
    var after, settings := SetAll(file, updates, order), Tuned(c, u).0.Settings();
    TunedSettings(c, u);
    SetAllKeepsWellFormed(file, updates, order);
    SettingsAfter(file, updates, order, SectionFor(settings.Type()), u, settings.Answer());
    match c
    case PidController(pid, feedforward) => PidInSync(pid, feedforward, u, file, after);
    case SmithController(smith) => SmithInSync(smith, u, file, after);
    case StepController(output) => StepInSync(output, u, file, after);
  }

  /** What persistedUpdates returns for a controller that now has these settings. */
  ghost predicate WritesBack(updates: map<string, Scalar>, u: ControllerParams, settings: Settings) {
    Holds(updates, SectionFor(settings.Type()), u, settings.Answer())
  }

  // Histories of the active controller and its file

  datatype World = World(active: ControllerState, file: Tree) {
    predicate Agrees() {
      active.Valid() && WellFormed(file) && InSync(active.Settings(), file)
    }
  }

  /** What can happen: an update that is stored in some order, an update that is rejected, a
      sample, a reset. */
  datatype Event =
    | Updated(u: ControllerParams, updates: map<string, Scalar>, order: seq<string>)
    | Refused(u: ControllerParams)
    | Sampled(measured: Number, at: int)
    | Reset

  ghost predicate Possible(w: World, e: Event) {
    w.active.Valid() &&
    match e
    case Updated(u, updates, order) =>
      && Tuned(w.active, u).1.None?
      && WritesBack(updates, u, Tuned(w.active, u).0.Settings()) && Enumerates(order, updates.Keys)
    case Refused(u) => Tuned(w.active, u).1.Some?
    case _ => true
  }

  ghost function After(w: World, e: Event): (w': World)
    requires Possible(w, e)
    ensures w'.active.Valid()
  {
    match e
    case Updated(u, updates, order) => World(Tuned(w.active, u).0, SetAll(w.file, updates, order))
    case Refused(u) => World(Tuned(w.active, u).0, w.file)
    case Sampled(measured, at) => World(Measured(w.active, measured, at).0, w.file)
    case Reset => World(Restarted(w.active), w.file)
  }

  ghost predicate History(w: World, events: seq<Event>)
    decreases |events|
  {
    events == [] || (Possible(w, events[0]) && History(After(w, events[0]), events[1..]))
  }

  ghost function Final(w: World, events: seq<Event>): World
    requires History(w, events)
    decreases |events|
  {
    if events == [] then w else Final(After(w, events[0]), events[1..])
  }

  lemma RefusalChangesNothing(c: ControllerState, u: ControllerParams)
    requires c.Valid() && Tuned(c, u).1.Some?
    ensures Tuned(c, u).0 == c
  {
  }

  lemma SamplingKeepsSettings(c: ControllerState, measured: Number, at: int)
    requires c.Valid()
    ensures Measured(c, measured, at).0.Settings() == c.Settings()
    ensures Restarted(c).Settings() == c.Settings()
  {
    hide Pid.Stepped, Smith.Stepped;
  }

  /** In a file that agrees with a controller, the section rebuilds it as it is after Reset. */
  lemma RebuiltIsRestarted(w: World)
    requires w.Agrees()
    ensures Built(Load(w.file).value, w.active.Settings().Type()) == Ok(Restarted(w.active))
  {
    hide Load, PidFromConfig, SmithFromConfig;
    var cfg := Load(w.file).value;
    match w.active
    case PidController(pid, feedforward) =>
      PidProperties.ResetIsNew(pid);
      Pid.NormalizedIsProjection(pid.params);
    case SmithController(smith) =>
      SmithProperties.ResetIsNew(smith);
      Smith.NormalizedIsProjection(smith.params);
    case StepController(_) =>
  }

  /** A controller and a file that agree once agree for ever: after any history, rebuilding from
      the file gives the running controller as it would be after Reset. */
  lemma {:induction false} HistoryKeepsInSync(w: World, events: seq<Event>)
    requires w.Agrees() && History(w, events)
    ensures Final(w, events).Agrees()
    ensures var end := Final(w, events);
      Built(Load(end.file).value, end.active.Settings().Type()) == Ok(Restarted(end.active))
    decreases |events|
  {
    hide InSync, Built, WritesBack, Tuned, Measured, Restarted, Load;
    if events == [] {
      RebuiltIsRestarted(w);
    } else {
      EventKeepsInSync(w, events[0]);
      HistoryKeepsInSync(After(w, events[0]), events[1..]);
    }
  }

  lemma EventKeepsInSync(w: World, e: Event)
    requires w.Agrees() && Possible(w, e)
    ensures After(w, e).Agrees()
  {
    hide InSync, Tuned, Measured, Restarted, WritesBack;
    match e
    case Updated(u, updates, order) => UpdateKeepsInSync(w.active, u, w.file, updates, order);
    case Refused(u) => RefusalChangesNothing(w.active, u);
    case Sampled(measured, at) => SamplingKeepsSettings(w.active, measured, at);
    case Reset => SamplingKeepsSettings(w.active, NonFinite, 0);
  }
}
