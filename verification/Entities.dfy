/** app/entities: the parameters a controller is asked about or told to change, every one of them
    optional, and the names they have in the configuration file. */
module Entities {
  import opened Numbers
  import opened YamlTree

  datatype ControllerParams = ControllerParams(
    kp: Option<real>, ki: Option<real>, kd: Option<real>,
    min: Option<real>, max: Option<real>, iClamp: Option<real>, setpoint: Option<Number>,
    filterType: Option<string>, filterSize: Option<int>, ffGain: Option<real>,
    modelK: Option<Number>, modelTau: Option<Number>, modelTheta: Option<Number>,
    sampleSeconds: Option<Number>)

  const NO_PARAMS := ControllerParams(None, None, None, None, None, None, None, None, None, None, None, None, None, None)

  /** ptr.Assign. */
  function Assign<T>(dst: T, src: Option<T>): T {
    match src
    case None => dst
    case Some(v) => v
  }

  /** The settings of a controller section. */
  datatype Key =
    | Setpoint | Kp | Ki | Kd | Minimum | Maximum | IClamp | FfGain | FilterType | FilterSize
    | ModelK | ModelTau | ModelTheta | SampleSeconds | FilterTau

  function Name(k: Key): string {
    match k
    case Setpoint => "setpoint"
    case Kp => "kp"
    case Ki => "ki"
    case Kd => "kd"
    case Minimum => "min"
    case Maximum => "max"
    case IClamp => "i_clamp"
    case FfGain => "ff_gain"
    case FilterType => "setpoint_filter_type"
    case FilterSize => "setpoint_filter_size"
    case ModelK => "model_k"
    case ModelTau => "model_tau"
    case ModelTheta => "model_theta"
    case SampleSeconds => "sample_seconds"
    case FilterTau => "setpoint_filter_tau"
  }

  /** A fingerprint that tells the names apart. */
  function Code(name: string): (int, char) {
    (|name|, if |name| == 20 then name[17] else if |name| > 1 then name[|name| - 1] else ' ')
  }

  function KeyOf(code: (int, char)): Key {
    match code
    case (8, _) => Setpoint
    case (2, c) => if c == 'p' then Kp else if c == 'i' then Ki else Kd
    case (3, c) => if c == 'n' then Minimum else Maximum
    case (7, c) => if c == 'p' then IClamp else if c == 'n' then FfGain else ModelK
    case (20, c) => if c == 'y' then FilterType else FilterSize
    case (9, _) => ModelTau
    case (11, _) => ModelTheta
    case (14, _) => SampleSeconds
    case _ => FilterTau
  }

  lemma KeyOfName(k: Key)
    ensures KeyOf(Code(Name(k))) == k && '.' !in Name(k)
  {
  }

  lemma NamesDiffer(a: Key, b: Key)
    ensures Name(a) == Name(b) <==> a == b
  {
    hide Name, Code, KeyOf;
    KeyOfName(a);
    KeyOfName(b);
  }

  function Measure(x: Option<real>): Option<Scalar> {
    match x
    case None => None
    case Some(v) => Some(Num(Finite(v)))
  }

  function Quantity(x: Option<Number>): Option<Scalar> {
    match x
    case None => None
    case Some(v) => Some(Num(v))
  }

  function Words(x: Option<string>): Option<Scalar> {
    match x
    case None => None
    case Some(v) => Some(Text(v))
  }

  function Count(x: Option<int>): Option<Scalar> {
    match x
    case None => None
    case Some(v) => Some(Num(Finite(v as real)))
  }

  /** What a set of parameters says about one setting. */
  function Field(p: ControllerParams, k: Key): Option<Scalar> {
    match k
    case Setpoint => Quantity(p.setpoint)
    case Kp => Measure(p.kp)
    case Ki => Measure(p.ki)
    case Kd => Measure(p.kd)
    case Minimum => Measure(p.min)
    case Maximum => Measure(p.max)
    case IClamp => Measure(p.iClamp)
    case FfGain => Measure(p.ffGain)
    case FilterType => Words(p.filterType)
    case FilterSize => Count(p.filterSize)
    case ModelK => Quantity(p.modelK)
    case ModelTau => Quantity(p.modelTau)
    case ModelTheta => Quantity(p.modelTheta)
    case SampleSeconds => Quantity(p.sampleSeconds)
    case FilterTau => None
  }
}
