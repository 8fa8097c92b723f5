/** What probing a wheel does with the results of its fallible steps: run
    them in order, stop at the first nonzero result and return it. */
module WheelLifecycle {

  /** The fallible external steps of probe. */
  datatype Step =
    | InitInput       // allocate and name the input device
    | RegisterInput   // register it, after declaring its capabilities
    | SetPowerOn      // power the accessory on
    | InitLed         // set up the guide-button LED
    | CompleteAuth    // tell the bus that authentication is complete

  const ProbeSteps: seq<Step> := [InitInput, RegisterInput, SetPowerOn, InitLed, CompleteAuth]

  /** What each external step returns: 0 for success, an error code
      otherwise. */
  datatype Outcomes = Outcomes(initInput: int, registerInput: int, setPowerOn: int, initLed: int, completeAuth: int)

  function Result(o: Outcomes, step: Step): int
  {
    match step
    case InitInput => o.initInput
    case RegisterInput => o.registerInput
    case SetPowerOn => o.setPowerOn
    case InitLed => o.initLed
    case CompleteAuth => o.completeAuth
  }

  /** The index of the first step whose result is nonzero, or |steps| when
      every step succeeds. */
  function FirstFailure(o: Outcomes, steps: seq<Step>): (k: nat)
    ensures k <= |steps|
    ensures forall i :: 0 <= i < k ==> Result(o, steps[i]) == 0
    ensures k < |steps| ==> Result(o, steps[k]) != 0
  {
    if steps == [] || Result(o, steps[0]) != 0 then 0
    else 1 + FirstFailure(o, steps[1..])
  }

  /** What probe returns: the first nonzero result, or 0. */
  function ProbeError(o: Outcomes, steps: seq<Step>): int
  {
    var k := FirstFailure(o, steps);
    if k < |steps| then Result(o, steps[k]) else 0
  }

  /** The steps probe attempts: up to and including the first failing one. */
  function ProbeTrace(o: Outcomes, steps: seq<Step>): seq<Step>
  {
    var k := FirstFailure(o, steps);
    if k < |steps| then steps[..k + 1] else steps
  }

  /** When step k is the first to fail, probe returns its result and
      attempts nothing after it. */
  lemma FailureAt(o: Outcomes, steps: seq<Step>, k: nat)
    requires k < |steps|
    requires forall i :: 0 <= i < k ==> Result(o, steps[i]) == 0
    requires Result(o, steps[k]) != 0
    ensures ProbeError(o, steps) == Result(o, steps[k])
    ensures ProbeTrace(o, steps) == steps[..k + 1]
  {
  }

  /** When every step succeeds, probe returns 0 after attempting them all. */
  lemma AllSucceed(o: Outcomes, steps: seq<Step>)
    requires forall i :: 0 <= i < |steps| ==> Result(o, steps[i]) == 0
    ensures ProbeError(o, steps) == 0
    ensures ProbeTrace(o, steps) == steps
  {
  }

  /** Probe returns 0 exactly when every step returns 0. */
  lemma ProbeSucceedsIff(o: Outcomes, steps: seq<Step>)
    ensures ProbeError(o, steps) == 0 <==> forall i :: 0 <= i < |steps| ==> Result(o, steps[i]) == 0
  {
  }

  /** The attempted steps are a prefix of the step list, in its order;
      every attempted step but the last succeeded; a nonzero error is the
      result of the last attempted step; and a successful probe attempted
      every step. */
  lemma ProbeTraceShape(o: Outcomes, steps: seq<Step>)
    ensures var t := ProbeTrace(o, steps);
      |t| <= |steps| && t == steps[..|t|] &&
      (steps != [] ==> t != []) &&
      (forall i :: 0 <= i < |t| - 1 ==> Result(o, t[i]) == 0) &&
      (ProbeError(o, steps) != 0 ==> t != [] && ProbeError(o, steps) == Result(o, t[|t| - 1])) &&
      (ProbeError(o, steps) == 0 ==> t == steps)
  {
  }

  /** The six possible runs of probe's step list, spelled out. */
  lemma ProbeRuns(o: Outcomes)
    ensures o.initInput != 0 ==>
      ProbeError(o, ProbeSteps) == o.initInput &&
      ProbeTrace(o, ProbeSteps) == [InitInput]
    ensures o.initInput == 0 && o.registerInput != 0 ==>
      ProbeError(o, ProbeSteps) == o.registerInput &&
      ProbeTrace(o, ProbeSteps) == [InitInput, RegisterInput]
    ensures o.initInput == 0 && o.registerInput == 0 && o.setPowerOn != 0 ==>
      ProbeError(o, ProbeSteps) == o.setPowerOn &&
      ProbeTrace(o, ProbeSteps) == [InitInput, RegisterInput, SetPowerOn]
    ensures o.initInput == 0 && o.registerInput == 0 && o.setPowerOn == 0 &&
            o.initLed != 0 ==>
      ProbeError(o, ProbeSteps) == o.initLed &&
      ProbeTrace(o, ProbeSteps) == [InitInput, RegisterInput, SetPowerOn, InitLed]
    ensures o.initInput == 0 && o.registerInput == 0 && o.setPowerOn == 0 &&
            o.initLed == 0 && o.completeAuth != 0 ==>
      ProbeError(o, ProbeSteps) == o.completeAuth &&
      ProbeTrace(o, ProbeSteps) == ProbeSteps
    ensures o.initInput == 0 && o.registerInput == 0 && o.setPowerOn == 0 &&
            o.initLed == 0 && o.completeAuth == 0 ==>
      ProbeError(o, ProbeSteps) == 0 && ProbeTrace(o, ProbeSteps) == ProbeSteps
  {
    var s := ProbeSteps;
    if o.initInput != 0 {
      FailureAt(o, s, 0);
    } else if o.registerInput != 0 {
      FailureAt(o, s, 1);
    } else if o.setPowerOn != 0 {
      FailureAt(o, s, 2);
    } else if o.initLed != 0 {
      FailureAt(o, s, 3);
    } else if o.completeAuth != 0 {
      FailureAt(o, s, 4);
    } else {
      AllSucceed(o, s);
    }
  }

  /** Probe's five steps are distinct; input setup comes first and the
      authentication hook last. */
  lemma ProbeOrder()
    ensures |ProbeSteps| == 5
    ensures forall i, j :: 0 <= i < j < |ProbeSteps| ==> ProbeSteps[i] != ProbeSteps[j]
    ensures ProbeSteps[0] == InitInput && ProbeSteps[4] == CompleteAuth
  {
  }
}
