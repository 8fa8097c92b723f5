/** The wheel adapter itself: its per-device context, the two callbacks the
    bus invokes once a wheel is bound (guide button and input report), and
    probe and remove. */
module WheelDriver {
  import opened InputCore
  import opened WheelReport
  import opened WheelCaps
  import opened WheelLifecycle

  /** A client of the bus, as the adapter sees it: the driver data attached
      to its device, and the fallible external calls made on its behalf, in
      the order they were made. */
  class Client {
    var drvdata: Wheel?
    var calls: seq<Step>

    constructor ()
      ensures drvdata == null && calls == []
    {
      drvdata := null;
      calls := [];
    }

    /** A probed wheel with its input device is attached. */
    predicate Bound()
      reads this, drvdata
    {
      drvdata != null && drvdata.input != null
    }

    /** Perform external step `step`, whose outcome `o` supplies. */
    method Call(step: Step, o: Outcomes) returns (err: int)
      modifies this
      ensures err == Result(o, step)
      ensures calls == old(calls) + [step] && drvdata == old(drvdata)
    {
      calls := calls + [step];
      err := Result(o, step);
    }
  }

  /** The per-device context: the client it serves, its input device once
      allocated, and whether its LED has been set up. */
  class Wheel {
    var client: Client
    var input: InputDev?
    var ledReady: bool

    /** Zero-filled allocation with the client recorded. */
    constructor (client: Client)
      ensures this.client == client && input == null && !ledReady
    {
      this.client := client;
      input := null;
      ledReady := false;
    }

    /** Every probe step took effect: the input device is named, declares
        exactly the wheel's keys and axes and is registered, and the LED is
        set up. */
    predicate Ready()
      reads this, input
    {
      input != null && input.name == WheelName && input.registered &&
      input.keys == DeclaredKeys && input.abs == DeclaredAbs && ledReady
    }
  }

  /** Declare the wheel's nine keys and six axes on its input device, then
      register the device. */
  method InitWheelInput(wheel: Wheel, o: Outcomes) returns (err: int)
    requires wheel.input != null
    modifies wheel.input, wheel.client
    ensures wheel.input.keys == old(wheel.input.keys) + DeclaredKeys
    ensures wheel.input.abs == old(wheel.input.abs) + DeclaredAbs
    ensures err == Result(o, RegisterInput)
    ensures wheel.input.registered == (old(wheel.input.registered) || err == 0)
    ensures wheel.input.name == old(wheel.input.name) && wheel.input.events == old(wheel.input.events)
    ensures wheel.client.calls == old(wheel.client.calls) + [RegisterInput]
    ensures wheel.client.drvdata == old(wheel.client.drvdata)
  {
    var dev := wheel.input;
    ghost var keys0, abs0 := dev.keys, dev.abs;
    dev.SetCapability(BtnMode);
    dev.SetCapability(BtnStart);
    dev.SetCapability(BtnSelect);
    dev.SetCapability(BtnA);
    dev.SetCapability(BtnB);
    dev.SetCapability(BtnX);
    dev.SetCapability(BtnY);
    dev.SetCapability(BtnTL);
    dev.SetCapability(BtnTR);
    DeclaredKeysUpdates(keys0);
    dev.SetAbsParams(AbsX, 0, 65535, 16, 128);
    dev.SetAbsParams(AbsY, 0, 1023, 0, 0);
    dev.SetAbsParams(AbsZ, 0, 1023, 0, 0);
    dev.SetAbsParams(AbsRZ, 0, 1023, 0, 0);
    dev.SetAbsParams(AbsHat0X, -1, 1, 0, 0);
    dev.SetAbsParams(AbsHat0Y, -1, 1, 0, 0);
    DeclaredAbsUpdates(abs0);

    err := wheel.client.Call(RegisterInput, o);
    if err == 0 {
      dev.MarkRegistered();
    }
  }

  /** The guide button: one BTN_MODE event and a sync. */
  method OpGuideButton(client: Client, down: bool) returns (err: int)
    requires client.Bound()
    modifies client.drvdata.input
    ensures err == 0
    ensures client.drvdata.input.events == old(client.drvdata.input.events) + GuideEvents(down)
    ensures client.drvdata.input.name == old(client.drvdata.input.name)
    ensures client.drvdata.input.keys == old(client.drvdata.input.keys)
    ensures client.drvdata.input.abs == old(client.drvdata.input.abs)
    ensures client.drvdata.input.registered == old(client.drvdata.input.registered)
  {
    var dev := client.drvdata.input;
    dev.ReportKey(BtnMode, if down then 1 else 0);
    dev.Sync();
    err := 0;
  }

  /** The eight key reports of an input report, in the adapter's order. */
  method ReportButtons(dev: InputDev, buttons: U16)
    modifies dev
    ensures dev.events == old(dev.events) + KeyEvents(buttons)
    ensures dev.name == old(dev.name) && dev.keys == old(dev.keys)
    ensures dev.abs == old(dev.abs) && dev.registered == old(dev.registered)
  {
    ghost var e0 := dev.events;
    dev.ReportKey(BtnStart, AndMask(buttons, Menu));
    dev.ReportKey(BtnSelect, AndMask(buttons, View));
    dev.ReportKey(BtnA, AndMask(buttons, A));
    dev.ReportKey(BtnB, AndMask(buttons, B));
    dev.ReportKey(BtnX, AndMask(buttons, X));
    dev.ReportKey(BtnY, AndMask(buttons, Y));
    dev.ReportKey(BtnTL, AndMask(buttons, BumperL));
    dev.ReportKey(BtnTR, AndMask(buttons, BumperR));
    AppendEight(e0, KeyEvent(BtnStart, AndMask(buttons, Menu) != 0), KeyEvent(BtnSelect, AndMask(buttons, View) != 0),
      KeyEvent(BtnA, AndMask(buttons, A) != 0), KeyEvent(BtnB, AndMask(buttons, B) != 0),
      KeyEvent(BtnX, AndMask(buttons, X) != 0), KeyEvent(BtnY, AndMask(buttons, Y) != 0),
      KeyEvent(BtnTL, AndMask(buttons, BumperL) != 0), KeyEvent(BtnTR, AndMask(buttons, BumperR) != 0));
    KeyEventsByMask(buttons);
  }

  /** The six axis reports of an input report, in the adapter's order. */
  method ReportAxes(dev: InputDev, pkt: InputPacket)
    modifies dev
    ensures dev.events == old(dev.events) + AxisEvents(pkt)
    ensures dev.name == old(dev.name) && dev.keys == old(dev.keys)
    ensures dev.abs == old(dev.abs) && dev.registered == old(dev.registered)
  {
    var buttons := pkt.buttons;
    ghost var e0 := dev.events;
    dev.ReportAbs(AbsX, pkt.steering);
    dev.ReportAbs(AbsY, pkt.accelerator);
    dev.ReportAbs(AbsZ, pkt.brake);
    dev.ReportAbs(AbsRZ, pkt.clutch);
    dev.ReportAbs(AbsHat0X, NotNot(AndMask(buttons, DpadR)) - NotNot(AndMask(buttons, DpadL)));
    dev.ReportAbs(AbsHat0Y, NotNot(AndMask(buttons, DpadD)) - NotNot(AndMask(buttons, DpadU)));
    AppendSix(e0, AbsEvent(AbsX, pkt.steering), AbsEvent(AbsY, pkt.accelerator),
      AbsEvent(AbsZ, pkt.brake), AbsEvent(AbsRZ, pkt.clutch),
      AbsEvent(AbsHat0X, NotNot(AndMask(buttons, DpadR)) - NotNot(AndMask(buttons, DpadL))),
      AbsEvent(AbsHat0Y, NotNot(AndMask(buttons, DpadD)) - NotNot(AndMask(buttons, DpadU))));
    AxisEventsByMask(pkt);
  }

  /** Decode one input report. A frame shorter than the report is refused
      with -EINVAL and reports nothing; otherwise the report's events are
      appended and 0 is returned. */
  method OpInput(client: Client, data: seq<Byte>) returns (err: int)
    requires client.Bound()
    modifies client.drvdata.input
    ensures |data| < PacketSize ==>
      err == -EINVAL && client.drvdata.input.events == old(client.drvdata.input.events)
    ensures |data| >= PacketSize ==>
      err == 0 && client.drvdata.input.events == old(client.drvdata.input.events) + FrameEvents(Parse(data))
    ensures client.drvdata.input.name == old(client.drvdata.input.name)
    ensures client.drvdata.input.keys == old(client.drvdata.input.keys)
    ensures client.drvdata.input.abs == old(client.drvdata.input.abs)
    ensures client.drvdata.input.registered == old(client.drvdata.input.registered)
  {
    var dev := client.drvdata.input;
    if |data| < PacketSize {
      return -EINVAL;
    }
    var pkt := Parse(data);
    ReportButtons(dev, pkt.buttons);
    ReportAxes(dev, pkt);
    dev.Sync();
    err := 0;
  }

  /** Probe a newly matched client. `allocOk` is whether the context could
      be allocated; `o` gives the outcome of each fallible step. The
      steps run in order and the first failure is returned; only when all
      succeed is the context attached as the client's driver data. */
  method Probe(client: Client, allocOk: bool, o: Outcomes) returns (err: int)
    modifies client
    ensures !allocOk ==> err == -ENOMEM && client.calls == old(client.calls)
    ensures allocOk ==> err == ProbeError(o, ProbeSteps)
    ensures allocOk ==> client.calls == old(client.calls) + ProbeTrace(o, ProbeSteps)
    ensures err != 0 ==> client.drvdata == old(client.drvdata)
    ensures err == 0 ==>
      client.drvdata != null && fresh(client.drvdata) && client.drvdata.client == client &&
      client.drvdata.Ready() && fresh(client.drvdata.input) && client.drvdata.input.events == []
  {
    if !allocOk {
      return -ENOMEM;
    }
    var wheel := new Wheel(client);
    err := SetUp(wheel, o);
    if err != 0 {
      return;
    }
    client.drvdata := wheel;
  }

  /** The five fallible steps of probe on a freshly allocated context, up
      to the first failure. */
  method SetUp(wheel: Wheel, o: Outcomes) returns (err: int)
    requires wheel.input == null && !wheel.ledReady
    modifies wheel, wheel.client
    ensures wheel.client == old(wheel.client) && wheel.client.drvdata == old(wheel.client.drvdata)
    ensures err == ProbeError(o, ProbeSteps)
    ensures wheel.client.calls == old(wheel.client.calls) + ProbeTrace(o, ProbeSteps)
    ensures err == 0 ==> wheel.Ready() && fresh(wheel.input) && wheel.input.events == []
  {
    ProbeRuns(o);
    var client := wheel.client;
    ghost var calls0 := client.calls;

    err := client.Call(InitInput, o);
    assert client.calls == calls0 + [InitInput];
    if err != 0 {
      return;
    }
    wheel.input := new InputDev(WheelName);

    err := InitWheelInput(wheel, o);
    assert client.calls == calls0 + [InitInput, RegisterInput];
    if err != 0 {
      return;
    }
    DeclaredOnFresh();

    err := client.Call(SetPowerOn, o);
    assert client.calls == calls0 + [InitInput, RegisterInput, SetPowerOn];
    if err != 0 {
      return;
    }

    err := client.Call(InitLed, o);
    assert client.calls == calls0 + [InitInput, RegisterInput, SetPowerOn, InitLed];
    if err != 0 {
      return;
    }
    wheel.ledReady := true;

    err := client.Call(CompleteAuth, o);
    assert client.calls == calls0 + ProbeSteps;
  }

  /** Detach the context; the client's driver data is null afterwards,
      whatever it was before. */
  method Remove(client: Client)
    modifies client
    ensures client.drvdata == null && client.calls == old(client.calls)
  {
    client.drvdata := null;
  }
}
