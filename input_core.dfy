/** The part of the host input layer that the wheel adapter drives: the event
    vocabulary (key codes, absolute axes, the sync marker), the parameters of a
    declared absolute axis, and an input device that records what is declared
    on it and the events reported through it. */
module InputCore {

  /** The EV_KEY codes the wheel declares or reports. */
  datatype Key = BtnMode | BtnStart | BtnSelect | BtnA | BtnB | BtnX | BtnY | BtnTL | BtnTR

  /** The EV_ABS axes the wheel declares and reports. */
  datatype Axis = AbsX | AbsY | AbsZ | AbsRZ | AbsHat0X | AbsHat0Y

  /** One reported input event. A key event carries the normalised level
      (pressed or released); an axis event carries the raw value. */
  datatype Event = KeyEvent(key: Key, down: bool) | AbsEvent(axis: Axis, value: int) | Syn

  /** The code of an event, without its value. */
  datatype Code = KeyCode(key: Key) | AbsCode(axis: Axis) | SynCode

  /** Range and filtering parameters of a declared absolute axis. */
  datatype AbsInfo = AbsInfo(min: int, max: int, fuzz: int, flat: int)

  function CodeOf(e: Event): Code
  {
    match e
    case KeyEvent(k, _) => KeyCode(k)
    case AbsEvent(a, _) => AbsCode(a)
    case Syn => SynCode
  }

  /** An input device: its name, declared key and axis capabilities, whether
      it has been registered, and the log of events reported through it.
      Duplicate suppression and fuzz/flat filtering, which the input layer
      applies before passing events on, are not part of this model. */
  class InputDev {
    var name: string
    var keys: set<Key>
    var abs: map<Axis, AbsInfo>
    var registered: bool
    var events: seq<Event>

    /** A freshly allocated device with nothing declared and nothing reported. */
    constructor (name: string)
      ensures this.name == name
      ensures keys == {} && abs == map[] && !registered && events == []
    {
      this.name := name;
      keys := {};
      abs := map[];
      registered := false;
      events := [];
    }

    /** Declare that the device can report key `k`. */
    method SetCapability(k: Key)
      modifies this
      ensures keys == old(keys) + {k}
      ensures name == old(name) && abs == old(abs) && registered == old(registered) && events == old(events)
    {
      keys := keys + {k};
    }

    /** Declare absolute axis `a` with its range and filtering parameters. */
    method SetAbsParams(a: Axis, min: int, max: int, fuzz: int, flat: int)
      modifies this
      ensures abs == old(abs)[a := AbsInfo(min, max, fuzz, flat)]
      ensures name == old(name) && keys == old(keys) && registered == old(registered) && events == old(events)
    {
      abs := abs[a := AbsInfo(min, max, fuzz, flat)];
    }

    /** The effect of a successful registration. */
    method MarkRegistered()
      modifies this
      ensures registered
      ensures name == old(name) && keys == old(keys) && abs == old(abs) && events == old(events)
    {
      registered := true;
    }

    /** Report key `k`; any nonzero value means pressed. */
    method ReportKey(k: Key, value: int)
      modifies this
      ensures events == old(events) + [KeyEvent(k, value != 0)]
      ensures name == old(name) && keys == old(keys) && abs == old(abs) && registered == old(registered)
    {
      events := events + [KeyEvent(k, value != 0)];
    }

    /** Report the value of absolute axis `a`, unclamped. */
    method ReportAbs(a: Axis, value: int)
      modifies this
      ensures events == old(events) + [AbsEvent(a, value)]
      ensures name == old(name) && keys == old(keys) && abs == old(abs) && registered == old(registered)
    {
      events := events + [AbsEvent(a, value)];
    }

    /** Mark the end of one atomic input frame. */
    method Sync()
      modifies this
      ensures events == old(events) + [Syn]
      ensures name == old(name) && keys == old(keys) && abs == old(abs) && registered == old(registered)
    {
      events := events + [Syn];
    }
  }

  /** Eight events appended one at a time are the eight appended at once. */
  lemma AppendEight(es: seq<Event>, a: Event, b: Event, c: Event, d: Event, e: Event, f: Event, g: Event, h: Event)
    ensures es + [a] + [b] + [c] + [d] + [e] + [f] + [g] + [h] == es + [a, b, c, d, e, f, g, h]
  {
  }

  /** Six events appended one at a time are the six appended at once. */
  lemma AppendSix(es: seq<Event>, a: Event, b: Event, c: Event, d: Event, e: Event, f: Event)
    ensures es + [a] + [b] + [c] + [d] + [e] + [f] == es + [a, b, c, d, e, f]
  {
  }
}
