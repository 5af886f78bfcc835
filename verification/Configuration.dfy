/** pkg/config: the sections the controllers are built from, as read from a file. */
module Configuration {
  import opened Numbers
  import opened YamlTree
  import opened Entities

  datatype PidSection = PidSection(
    kp: real, ki: real, kd: real, min: real, max: real, iClamp: real, setpoint: Number,
    ffGain: real, filterTau: real, filterType: string, filterSize: int)

  datatype SmithSection = SmithSection(
    kp: real, ki: real, min: real, max: real, iClamp: real, setpoint: Number,
    modelK: Number, modelTau: Number, modelTheta: Number, sampleSeconds: Number,
    filterType: string, filterSize: int)

  /** `intervalMs` is the poller's interval. */
  datatype Config = Config(pid: PidSection, smith: SmithSection, intervalMs: int)

  const PID := "pid"
  const SMITH := "smith"

  /** The mapstructure tags of the two sections. */
  function Tag(k: Key): string {
    match k
    case Kp => "kp"
    case Ki => "ki"
    case Kd => "kd"
    case Minimum => "min"
    case Maximum => "max"
    case IClamp => "i_clamp"
    case Setpoint => "setpoint"
    case FfGain => "ff_gain"
    case FilterTau => "setpoint_filter_tau"
    case FilterType => "setpoint_filter_type"
    case FilterSize => "setpoint_filter_size"
    case ModelK => "model_k"
    case ModelTau => "model_tau"
    case ModelTheta => "model_theta"
    case SampleSeconds => "sample_seconds"
  }

  /** A setting is written under the name it is read under. */
  lemma TagIsName(k: Key)
    ensures Tag(k) == Name(k)
  {
  }

  /** What a file says about one setting of a section. */
  function Setting(file: Tree, section: string, k: Key): Option<Scalar> {
    Read(file, [section, Tag(k)])
  }

  /** int(x): towards zero. */
  function Truncate(x: real): int {
    if x >= 0.0 then x.Floor else -((-x).Floor)
  }

  /** The integer part, on the same side of zero; integers are kept. */
  lemma TruncatesTowardsZero(x: real, n: int)
    ensures Abs(Truncate(x) as real) <= Abs(x) < Abs(Truncate(x) as real) + 1.0
    ensures (Truncate(x) > 0 ==> x > 0.0) && (Truncate(x) < 0 ==> x < 0.0)
    ensures Truncate(n as real) == n
  {
  }

  // Reading a setting as a value of some type: the default if it is absent, None if it cannot be
  // read as one.

  function AsNumber(s: Option<Scalar>, default: real): Option<Number> {
    match s
    case None => Some(Finite(default))
    case Some(Num(x)) => Some(x)
    case Some(Text(_)) => None
  }

  function AsReal(s: Option<Scalar>, default: real): Option<real> {
    match AsNumber(s, default)
    case Some(Finite(x)) => Some(x)
    case _ => None
  }

  function AsInt(s: Option<Scalar>, default: int): Option<int> {
    match AsNumber(s, default as real)
    case Some(Finite(x)) => Some(Truncate(x))
    case _ => None
  }

  function AsText(s: Option<Scalar>, default: string): Option<string> {
    match s
    case None => Some(default)
    case Some(Text(t)) => Some(t)
    case Some(Num(_)) => None
  }

  function LoadPid(file: Tree): Option<PidSection> {
    match (AsReal(Setting(file, PID, Kp), 1.0), AsReal(Setting(file, PID, Ki), 0.1),
           AsReal(Setting(file, PID, Kd), 0.01), AsReal(Setting(file, PID, Minimum), 1.0),
           AsReal(Setting(file, PID, Maximum), 100.0), AsReal(Setting(file, PID, IClamp), 100.0),
           AsNumber(Setting(file, PID, Setpoint), 70.0), AsReal(Setting(file, PID, FfGain), 0.0),
           AsReal(Setting(file, PID, FilterTau), 0.0), AsText(Setting(file, PID, FilterType), ""),
           AsInt(Setting(file, PID, FilterSize), 0))
    case (Some(kp), Some(ki), Some(kd), Some(lo), Some(hi), Some(iClamp), Some(sp), Some(ff), Some(tau), Some(kind),
          Some(size)) =>
      Some(PidSection(kp, ki, kd, lo, hi, iClamp, sp, ff, tau, kind, size))
    case _ => None
  }

  function LoadSmith(file: Tree): Option<SmithSection> {
    match (AsReal(Setting(file, SMITH, Kp), 1.0), AsReal(Setting(file, SMITH, Ki), 0.1),
           AsReal(Setting(file, SMITH, Minimum), 0.0), AsReal(Setting(file, SMITH, Maximum), 100.0),
           AsReal(Setting(file, SMITH, IClamp), 100.0), AsNumber(Setting(file, SMITH, Setpoint), 70.0),
           AsNumber(Setting(file, SMITH, ModelK), 1.0), AsNumber(Setting(file, SMITH, ModelTau), 1.0),
           AsNumber(Setting(file, SMITH, ModelTheta), 0.0), AsNumber(Setting(file, SMITH, SampleSeconds), 1.0),
           AsText(Setting(file, SMITH, FilterType), ""), AsInt(Setting(file, SMITH, FilterSize), 0))
    case (Some(kp), Some(ki), Some(lo), Some(hi), Some(iClamp), Some(sp), Some(k), Some(tau), Some(theta), Some(s),
          Some(kind), Some(size)) =>
      Some(SmithSection(kp, ki, lo, hi, iClamp, sp, k, tau, theta, s, kind, size))
    case _ => None
  }

  /** Load, as far as the controllers are concerned. None stands for a file viper rejects, or
      whose text it would have to convert. */
  function Load(file: Tree): Option<Config> {
    match (LoadPid(file), LoadSmith(file), AsInt(Read(file, ["metrics_poller", "interval_ms"]), 5000))
    case (Some(pid), Some(smith), Some(interval)) => Some(Config(pid, smith, interval))
    case _ => None
  }

  /** A file that says nothing about the controllers gives the defaults. */
  lemma SilentFileGivesDefaults(file: Tree)
    requires forall section, k :: Setting(file, section, k).None?
    requires Read(file, ["metrics_poller", "interval_ms"]).None?
    ensures Load(file) == Some(Config(
      PidSection(1.0, 0.1, 0.01, 1.0, 100.0, 100.0, Finite(70.0), 0.0, 0.0, "", 0),
      SmithSection(1.0, 0.1, 0.0, 100.0, 100.0, Finite(70.0), Finite(1.0), Finite(1.0), Finite(0.0), Finite(1.0), "", 0),
      5000))
  {
    hide Setting, Tag;
  }
}
