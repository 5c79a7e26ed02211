/**
 The control-state store of the greenhouse twin (GlobalSettings): the four
 confirmed actuator flags, the gate that blocks remote refreshes, the eight
 handlers through which control events change the flags, and the
 "first instance wins" registration of the process-wide instance.
 */
module Store {

  /** The four actuators whose on/off status the store confirms. */
  datatype Actuator = Lights | UpperFan | LowerFan | Valve

  /** The confirmed actuator flags; `valve` is true when the valve is open. */
  datatype Status = Status(lights: bool, upperFan: bool, lowerFan: bool, valve: bool)
  {
    /** The flag of one actuator. */
    function Get(a: Actuator): bool {
      match a
      case Lights => lights
      case UpperFan => upperFan
      case LowerFan => lowerFan
      case Valve => valve
    }
  }

  /** The values the private status fields start with: lights on, both fans off, valve closed. */
  const InitialStatus := Status(true, false, false, false)

  /** The eight private handlers the store subscribes to control events. */
  datatype Handler =
    | SetLightingOn | SetLightingOff
    | SetUpperFanOn | SetUpperFanOff
    | SetLowerFanOn | SetLowerFanOff
    | SetValveOpen | SetValveClose
  {
    /** The one actuator this handler writes. */
    function Target(): Actuator {
      match this
      case SetLightingOn | SetLightingOff => Lights
      case SetUpperFanOn | SetUpperFanOff => UpperFan
      case SetLowerFanOn | SetLowerFanOff => LowerFan
      case SetValveOpen | SetValveClose => Valve
    }

    /** The fixed value this handler writes there. */
    function Value(): bool {
      match this
      case SetLightingOn | SetUpperFanOn | SetLowerFanOn | SetValveOpen => true
      case SetLightingOff | SetUpperFanOff | SetLowerFanOff | SetValveClose => false
    }
  }

  /** What running handler `h` does to the flags: its own actuator gets its
      fixed value, every other actuator keeps its flag. */
  function Handle(st: Status, h: Handler): (r: Status)
    ensures r.Get(h.Target()) == h.Value()
    ensures forall a :: a != h.Target() ==> r.Get(a) == st.Get(a)
  {
    match h
    case SetLightingOn => st.(lights := true)
    case SetLightingOff => st.(lights := false)
    case SetUpperFanOn => st.(upperFan := true)
    case SetUpperFanOff => st.(upperFan := false)
    case SetLowerFanOn => st.(lowerFan := true)
    case SetLowerFanOff => st.(lowerFan := false)
    case SetValveOpen => st.(valve := true)
    case SetValveClose => st.(valve := false)
  }

  /** A handler run twice leaves the same flags as run once. */
  lemma HandleIdempotent(st: Status, h: Handler)
    ensures Handle(Handle(st, h), h) == Handle(st, h)
  {
  }

  /** The process-wide settings object. The actuator flags are read-only to
      everybody else; only the eight handlers below write them, one field each.
      `blockApiCalls` is the one flag with a public setter. */
  class GlobalSettings {
    var lightsStatus: bool
    var upperFanStatus: bool
    var lowerFanStatus: bool
    var valveStatus: bool
    var blockApiCalls: bool

    constructor ()
      ensures State() == InitialStatus && !blockApiCalls
    {
      lightsStatus := true;
      upperFanStatus := false;
      lowerFanStatus := false;
      valveStatus := false;
      blockApiCalls := false;
    }

    /** The four actuator flags as a value. */
    function State(): Status
      reads this
    {
      Status(lightsStatus, upperFanStatus, lowerFanStatus, valveStatus)
    }

    /** The `BlockAPICalls` setter. */
    method SetBlockApiCalls(value: bool)
      modifies this`blockApiCalls
      ensures blockApiCalls == value
    {
      blockApiCalls := value;
    }

    method SetLightingOn()
      modifies this`lightsStatus
      ensures State() == Handle(old(State()), Handler.SetLightingOn)
    {
      lightsStatus := true;
    }

    method SetLightingOff()
      modifies this`lightsStatus
      ensures State() == Handle(old(State()), Handler.SetLightingOff)
    {
      lightsStatus := false;
    }

    method SetUpperFanOn()
      modifies this`upperFanStatus
      ensures State() == Handle(old(State()), Handler.SetUpperFanOn)
    {
      upperFanStatus := true;
    }

    method SetUpperFanOff()
      modifies this`upperFanStatus
      ensures State() == Handle(old(State()), Handler.SetUpperFanOff)
    {
      upperFanStatus := false;
    }

    method SetLowerFanOn()
      modifies this`lowerFanStatus
      ensures State() == Handle(old(State()), Handler.SetLowerFanOn)
    {
      lowerFanStatus := true;
    }

    method SetLowerFanOff()
      modifies this`lowerFanStatus
      ensures State() == Handle(old(State()), Handler.SetLowerFanOff)
    {
      lowerFanStatus := false;
    }

    method SetValveOpen()
      modifies this`valveStatus
      ensures State() == Handle(old(State()), Handler.SetValveOpen)
    {
      valveStatus := true;
    }

    method SetValveClose()
      modifies this`valveStatus
      ensures State() == Handle(old(State()), Handler.SetValveClose)
    {
      valveStatus := false;
    }

    /** Runs handler `h`, as a multicast delegate does when it reaches it. */
    method Invoke(h: Handler)
      modifies this`lightsStatus, this`upperFanStatus, this`lowerFanStatus, this`valveStatus
      ensures State() == Handle(old(State()), h)
    {
      match h
      case SetLightingOn => SetLightingOn();
      case SetLightingOff => SetLightingOff();
      case SetUpperFanOn => SetUpperFanOn();
      case SetUpperFanOff => SetUpperFanOff();
      case SetLowerFanOn => SetLowerFanOn();
      case SetLowerFanOff => SetLowerFanOff();
      case SetValveOpen => SetValveOpen();
      case SetValveClose => SetValveClose();
    }
  }

  /** The static `GlobalSettings.Instance` slot. */
  class SettingsRegistry {
    var instance: GlobalSettings?

    constructor ()
      ensures instance == null
    {
      instance := null;
    }

    /** `Awake` of a newly created settings object: the first one becomes the
        instance, any later one is destroyed and the instance stays as it was. */
    method Awake(newcomer: GlobalSettings) returns (destroyed: bool)
      modifies this
      ensures destroyed == (old(instance) != null)
      ensures instance == if destroyed then old(instance) else newcomer
    {
      if instance == null {
        instance := newcomer;
        destroyed := false;
      } else {
        destroyed := true;
      }
    }
  }
}
