# xone GIP wheel adapter — Dafny model

This project models the wheel adapter of the xone driver (`driver/wheel.c`).
The adapter binds to a GIP client of class `Windows.Xbox.Input.Wheel`. It
turns each 10-byte input report into Linux input events: eight buttons,
steering, three pedals and two D-pad hat axes. It also reports the guide
button, which arrives on a separate channel. When a wheel is probed, the
adapter runs five fallible set-up steps in order and stops at the first
failure. Only a fully probed wheel is attached as the client's driver data,
and remove detaches it.

Modules, in dependency order:

- `InputCore` (`input_core.dfy`) is the part of the input layer the adapter
  drives. It has the key, axis and event vocabulary, and a class `InputDev`.
  An `InputDev` records its name, its declared keys and axes, whether it is
  registered, and the events reported through it.
- `WheelReport` (`wheel_report.dfy`) holds the report's wire layout as
  `Parse` and `Encode`, and the button bit assignment `BitOf`. It also holds
  the events one report decodes to (`FrameEvents`), with the lemmas about
  bits, layout and decoded events.
- `WheelCaps` (`wheel_caps.dfy`) holds the declared capabilities and how the
  decoded events relate to them.
- `WheelLifecycle` (`wheel_lifecycle.dfy`) specifies probe on plain values.
  The steps run in order, the first nonzero result is returned, and
  `ProbeTrace` gives the steps attempted.
- `WheelDriver` (`wheel_driver.dfy`) holds the adapter itself:
  - the classes `Client`, for the bus client with its driver data and a log
    of external calls, and `Wheel`, for the per-device context;
  - the methods `InitWheelInput`, `OpGuideButton`, `OpInput`, `Probe` and
    `Remove`.

  Each method is proved against the specification functions above.

The external calls are not modelled by their code. This covers
`gip_init_input`, `input_register_device`, `gip_set_power_mode`,
`gip_init_led` and `gip_complete_authentication`. Their return values come in
through an `Outcomes` value, and the allocation's success through `allocOk`.
`Client.calls` records which of these calls were made, in order.

The code declares the three pedal axes as 0..1023 (`driver/wheel.c:57-59`)
but reports the raw 16-bit fields (`driver/wheel.c:100-102`), unclamped.
`WheelCaps.PedalRangeNotEnforced` shows that any frame whose sixth byte is 4
or more reports an accelerator above 1023. Steering and the hats do stay in
range (`WheelCaps.DeclaredRangesKept`).

The code keeps no lifecycle state of its own. The model's state is the
driver data, the input device's declarations and registration, the LED flag,
and a log of the external calls made.

## Model

| member | source | states |
|---|---|---|
| WheelReport.BitOf | driver/wheel.c:13-26 | every named button occupies a bit between 2 and 13 of the button field |
| WheelReport.Mask | driver/wheel.c:13-26 | every button's enum constant is a power of two between `BIT(2)` and `BIT(13)`, so it fits the 16-bit field |
| WheelReport.ButtonBitsDistinct | driver/wheel.c:13-26 | two buttons share a bit exactly when they are the same button |
| WheelReport.BitOfPow2 | driver/wheel.c:13-26 | the only bit set in `BIT(k)` is bit k |
| WheelReport.Le16Bit | driver/wheel.c:28-34 | bits 0-7 of a little-endian field come from its first byte, bits 8-15 from its second |
| WheelReport.Encode | driver/wheel.c:28-34 | the wire image of a report is exactly 10 bytes, the packed size of the five 16-bit fields |
| WheelReport.ParseEncode | driver/wheel.c:28-34 | reading back the wire image of any report gives that report |
| WheelReport.EncodeParse | driver/wheel.c:28-34 | re-encoding what was read from a frame gives the frame's first 10 bytes unchanged |
| WheelReport.PrefixDetermines | driver/wheel.c:81-110 | two frames that agree on their first 10 bytes decode to the same events, whatever follows |
| WheelReport.BitByDivision | driver/wheel.c:91-106 | bit n of a field, as the decoder reads it bit by bit, is the low bit of the field divided by 2^n |
| WheelReport.AndMaskIsBit | driver/wheel.c:91-106 | `buttons & BIT(n)`, computed as `(buttons / 2^n) % 2 * 2^n`, is `BIT(n)` when bit n is set and 0 otherwise, so it is nonzero exactly when the bit is set and `!!` of it is that bit as 0 or 1 |
| WheelReport.FrameAt | driver/wheel.c:91-107 | a decoded frame has 15 events: the eight button keys in table order, the four raw axes, the two hats, and the sync |
| WheelReport.KeyEventsByMask | driver/wheel.c:91-98 | the key events are exactly the eight `input_report_key` calls with their `buttons & mask` values, each nonzero value read as pressed |
| WheelReport.AxisEventsByMask | driver/wheel.c:99-106 | the axis events are exactly the six `input_report_abs` calls, the hats as `!!(right) - !!(left)` and `!!(down) - !!(up)` |
| WheelReport.FrameShape | driver/wheel.c:91-107 | every frame reports the same fixed sequence of 15 event codes, whatever the data |
| WheelReport.ButtonMapping | driver/wheel.c:91-98 | START, SELECT, A, B, X and Y read bits 2-7; TL and TR read bits 12 and 13 |
| WheelReport.AxisMapping | driver/wheel.c:99-107 | steering and the pedals are passed through raw; HAT0X is bit 11 minus bit 10, HAT0Y is bit 9 minus bit 8; then the sync |
| WheelReport.HatTable | driver/wheel.c:103-106 | a hat is 1 or -1 when exactly one of its two bits is pressed, and 0 when neither or both are; it never leaves -1..1 |
| WheelReport.FrameFromBytes | driver/wheel.c:86-106 | each key and hat event, given as a bit of byte 0 or byte 1 of the frame; each axis as `lo + 256 * hi` of its byte pair |
| WheelReport.UnnamedBitsIgnored | driver/wheel.c:13-26 | bits 0, 1, 14 and 15 of the button field change no event |
| WheelReport.DpadOnlyMovesHats | driver/wheel.c:91-106 | the D-pad bits change only the two hat events; keys, linear axes and the sync stay the same |
| WheelReport.OnlyThatButton | driver/wheel.c:13-26 | a field holding one reported button's mask has that button pressed and no other reported button |
| WheelReport.ReportedButtonsDistinct | driver/wheel.c:91-98 | no button is reported twice, and no key is reported for two buttons |
| WheelReport.SingleButton | driver/wheel.c:91-98 | a report with one reported button's bit alone presses exactly that button's key and releases the other seven |
| WheelReport.ExampleFrame | driver/wheel.c:81-110 | the frame `30 00 00 ...` reports A and B pressed, every other key released, and every axis and hat at 0 |
| WheelCaps.DeclaredKeysUpdates | driver/wheel.c:47-55 | the nine `input_set_capability` calls together add exactly the nine declared keys to what was declared before |
| WheelCaps.DeclaredAbsUpdates | driver/wheel.c:56-61 | the six `input_set_abs_params` calls together set exactly the six declared axis parameters over what was there before |
| WheelCaps.FrameUsesDeclaredCodes | driver/wheel.c:47-106 | every key a frame reports is declared and is not BTN_MODE; every axis it reports is declared |
| WheelCaps.DeclaredKeysReported | driver/wheel.c:47-98 | every declared key other than BTN_MODE is reported by every frame, at its button's position and with that button's bit |
| WheelCaps.ReportedKeysDeclared | driver/wheel.c:47-98 | the key of each reported button is declared and is not BTN_MODE |
| WheelCaps.DeclaredRangesKept | driver/wheel.c:56-106 | steering is within 0..65535 and both hats are within -1..1 in every frame |
| WheelCaps.PedalRangeNotEnforced | driver/wheel.c:57-100 | with the sixth byte at 4 or more, the accelerator event carries a value above its declared maximum of 1023 |
| WheelLifecycle.FirstFailure | driver/wheel.c:123-141 | the index of the first failing step: every earlier step returned 0, and the step at the index did not |
| WheelLifecycle.FailureAt | driver/wheel.c:123-141 | when step k is the first to fail, probe returns its error and attempts nothing after it |
| WheelLifecycle.AllSucceed | driver/wheel.c:123-145 | when every step returns 0, probe returns 0 after attempting all of them |
| WheelLifecycle.ProbeSucceedsIff | driver/wheel.c:123-145 | probe returns 0 if and only if every step returns 0 |
| WheelLifecycle.ProbeTraceShape | driver/wheel.c:123-145 | the attempted steps are a nonempty prefix of the step list, every attempted step but the last succeeded, a nonzero error is the last step's result, and a successful probe attempted every step |
| WheelLifecycle.ProbeRuns | driver/wheel.c:123-145 | the six possible outcomes of probe's five steps, each with its returned error and its attempted steps |
| WheelDriver.Client.Call | driver/wheel.c:123-141 | an external step returns its outcome, is appended to the client's call log, and leaves the driver data alone |
| WheelDriver.InitWheelInput | driver/wheel.c:42-69 | the device gains exactly the nine declared keys and six declared axes, then registration is attempted once and its result returned; the device is marked registered only on 0 |
| WheelDriver.OpGuideButton | driver/wheel.c:71-79 | the guide button appends one BTN_MODE event with its level, then a sync, and returns 0; the device's name, declarations and registration are unchanged |
| WheelDriver.ReportButtons | driver/wheel.c:91-98 | appends exactly the eight key events of the button field |
| WheelDriver.ReportAxes | driver/wheel.c:99-106 | appends exactly the four raw axis events and the two hat events |
| WheelDriver.OpInput | driver/wheel.c:81-110 | a frame shorter than 10 bytes returns -EINVAL and reports nothing; any other frame returns 0 and appends exactly the frame's decoded events; the device's declarations and registration are unchanged |
| WheelDriver.Probe | driver/wheel.c:112-146 | a failed allocation returns -ENOMEM with no step attempted; otherwise the steps run in order up to the first failure, whose error is returned; a failure leaves the driver data as it was; on success a fresh context for this client is attached, with a fresh, named, registered input device declaring exactly the wheel's keys and axes, with no events yet, and its LED set up |
| WheelDriver.SetUp | driver/wheel.c:123-141 | on a fresh context, the five steps run in order up to the first failure, whose error is returned, and the steps attempted are logged; when all succeed the context is ready, with a fresh input device that has reported nothing |
| WheelDriver.Remove | driver/wheel.c:148-151 | the client's driver data is null afterwards, whatever it was before, and no external step is made |

## Left out

- `transport/wired.c` and the rest of the GIP bus are not modelled. Frames and guide-button presses arrive as the parameters of `OpInput` and `OpGuideButton`.
- The bodies of `gip_init_input`, `input_register_device`, `gip_set_power_mode`, `gip_init_led` and `gip_complete_authentication` are not visible to this model. Only their return values matter to the adapter, and those come from `Outcomes`.
- The effects of `gip_set_power_mode` and `gip_complete_authentication` are recorded only in the call log. The LED context is recorded only as `Wheel.ledReady`.
- `input_set_capability` and `input_set_abs_params` are modelled by their effect on the declared keys and axes only. The input layer's interpretation of those declarations is not modelled.
- The input layer's duplicate-event suppression and its fuzz and flat filtering are not modelled. `InputDev.events` is what the adapter passes to the input layer, before any filtering.
- `devm_kzalloc` is modelled as the boolean `allocOk`. Device-managed freeing of the context when probe fails is not modelled.
- `dev_err` logging on a failed registration is not modelled, because it has no effect on the adapter's state.
- WheelDriver.OpInput: the frame length is `|data|`, so it is never negative. The code compares a signed `int len` with `sizeof`, which converts a negative `len` to a large unsigned value that passes the length test. That case is not modelled.
- WheelDriver.OpInput: the code reads the button field before it checks the length, so frames of 0 or 1 bytes are read out of bounds. The model checks the length first. It captures only what the code then does, which is to report nothing and return -EINVAL.
- WheelDriver.OpGuideButton and WheelDriver.OpInput require `Bound()`. The code dereferences the driver data without a check, so the bus must not call them before a successful probe or after remove.
- Concurrency between remove and an in-flight callback is not modelled. This is a requirement on the transport, and the adapter holds no lock.
- The driver registration table, the module aliases and the module metadata (`driver/wheel.c:153-170`) are declarations with no behaviour. They are not modelled.
