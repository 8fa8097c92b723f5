/** The wheel's input report: its 10-byte little-endian wire layout, the
    button bit assignment, and the events one report decodes to. */
module WheelReport {
  import opened InputCore

  type Byte = x: int | 0 <= x < 0x100
  type U16 = x: int | 0 <= x < 0x1_0000

  /** Size of the packed input report: five 16-bit fields, no padding. */
  const PacketSize: nat := 10

  /** Return codes of the Linux kernel the adapter uses. */
  const EINVAL: int := 22
  const ENOMEM: int := 12

  /** The twelve named bits of the report's button field. */
  datatype WheelButton =
    Menu | View | A | B | X | Y | DpadU | DpadD | DpadL | DpadR | BumperL | BumperR

  /** The bit position each button occupies; all lie between 2 and 13. */
  function BitOf(b: WheelButton): (n: nat)
    ensures 2 <= n <= 13
  {
    match b
    case Menu => 2
    case View => 3
    case A => 4
    case B => 5
    case X => 6
    case Y => 7
    case DpadU => 8
    case DpadD => 9
    case DpadL => 10
    case DpadR => 11
    case BumperL => 12
    case BumperR => 13
  }

  function Pow2(n: nat): (r: nat)
    ensures r >= 1
  {
    if n == 0 then 1 else 2 * Pow2(n - 1)
  }

  /** Bit `n` of a non-negative number. */
  predicate Bit(w: nat, n: nat)
  {
    if n == 0 then w % 2 == 1 else Bit(w / 2, n - 1)
  }

  /** The enum constant of a button: BIT(n) for its position n. */
  function Mask(b: WheelButton): (m: nat)
    ensures 4 <= m < 0x4000
  {
    Pow2Below(BitOf(b), 14);
    Pow2Below(2, BitOf(b));
    Pow2(BitOf(b))
  }

  /** Pow2 grows with its exponent. */
  lemma {:induction false} Pow2Below(n: nat, k: nat)
    requires n <= k
    ensures Pow2(n) <= Pow2(k)
    ensures k == 14 && n < k ==> Pow2(n) < 0x4000
    ensures n == 2 ==> Pow2(n) == 4
  {
    if n < k {
      Pow2Below(n, k - 1);
    }
  }

  /** `w & BIT(n)` for the mask of button `b`, computed on integers: the
      quotient by 2^n selects bit n, which is scaled back by 2^n. */
  function AndMask(w: U16, b: WheelButton): nat
  {
    (w / Mask(b)) % 2 * Mask(b)
  }

  /** C's `!!x`. */
  function NotNot(x: int): int
  {
    if x != 0 then 1 else 0
  }

  /** The decoded fields of one input report. */
  datatype InputPacket = InputPacket(buttons: U16, steering: U16, accelerator: U16, brake: U16, clutch: U16)

  /** A little-endian 16-bit field. */
  function Le16(lo: Byte, hi: Byte): U16
  {
    lo + 0x100 * hi
  }

  /** Read the packed report from the first PacketSize bytes of a frame. */
  function Parse(data: seq<Byte>): InputPacket
    requires |data| >= PacketSize
  {
    InputPacket(Le16(data[0], data[1]), Le16(data[2], data[3]), Le16(data[4], data[5]),
                Le16(data[6], data[7]), Le16(data[8], data[9]))
  }

  /** The wire image of a report, field by field, low byte first. */
  function Encode(p: InputPacket): (data: seq<Byte>)
    ensures |data| == PacketSize
  {
    [p.buttons % 0x100, p.buttons / 0x100, p.steering % 0x100, p.steering / 0x100,
     p.accelerator % 0x100, p.accelerator / 0x100, p.brake % 0x100, p.brake / 0x100,
     p.clutch % 0x100, p.clutch / 0x100]
  }

  /** The buttons reported as keys, in the order they are reported, with
      their key codes. The four D-pad bits are not among them. */
  const ReportedButtons: seq<(WheelButton, Key)> :=
    [(Menu, BtnStart), (View, BtnSelect), (A, BtnA), (B, BtnB),
     (X, BtnX), (Y, BtnY), (BumperL, BtnTL), (BumperR, BtnTR)]

  predicate Pressed(w: U16, b: WheelButton)
  {
    Bit(w, BitOf(b))
  }

  /** A hat axis built from two opposing D-pad bits: +1, -1, or 0 when
      neither or both are pressed. */
  function Hat(w: U16, plus: WheelButton, minus: WheelButton): int
  {
    (if Pressed(w, plus) then 1 else 0) - (if Pressed(w, minus) then 1 else 0)
  }

  /** One level-triggered key event per reported button. */
  function KeyEvents(w: U16): seq<Event>
  {
    seq(|ReportedButtons|, i requires 0 <= i < |ReportedButtons| =>
      KeyEvent(ReportedButtons[i].1, Pressed(w, ReportedButtons[i].0)))
  }

  /** The four linear axes, raw, then the two hat axes. */
  function AxisEvents(p: InputPacket): seq<Event>
  {
    [AbsEvent(AbsX, p.steering), AbsEvent(AbsY, p.accelerator),
     AbsEvent(AbsZ, p.brake), AbsEvent(AbsRZ, p.clutch),
     AbsEvent(AbsHat0X, Hat(p.buttons, DpadR, DpadL)),
     AbsEvent(AbsHat0Y, Hat(p.buttons, DpadD, DpadU))]
  }

  /** The events one report decodes to: the buttons, the four linear axes,
      the two hat axes, and one sync marker. */
  function FrameEvents(p: InputPacket): seq<Event>
  {
    KeyEvents(p.buttons) + AxisEvents(p) + [Syn]
  }

  /** The events the guide button's side channel reports. */
  function GuideEvents(down: bool): seq<Event>
  {
    [KeyEvent(BtnMode, down), Syn]
  }

  /** The fixed code sequence of every decoded frame. */
  const FrameCodes: seq<Code> :=
    [KeyCode(BtnStart), KeyCode(BtnSelect), KeyCode(BtnA), KeyCode(BtnB),
     KeyCode(BtnX), KeyCode(BtnY), KeyCode(BtnTL), KeyCode(BtnTR),
     AbsCode(AbsX), AbsCode(AbsY), AbsCode(AbsZ), AbsCode(AbsRZ),
     AbsCode(AbsHat0X), AbsCode(AbsHat0Y), SynCode]

  // ---------------------------------------------------------------------
  // Bit arithmetic

  lemma {:induction false} NoBitOfZero(n: nat)
    ensures !Bit(0, n)
  {
    if n > 0 { NoBitOfZero(n - 1); }
  }

  /** The only bit of 2^k is bit k. */
  lemma {:induction false} BitOfPow2(k: nat, n: nat)
    ensures Bit(Pow2(k), n) <==> k == n
  {
    if k == 0 {
      if n > 0 { NoBitOfZero(n - 1); }
    } else if n > 0 {
      assert Pow2(k) / 2 == Pow2(k - 1);
      BitOfPow2(k - 1, n - 1);
    }
  }

  /** Adding a multiple of 2^k leaves the bits below k alone. */
  lemma {:induction false} BitBelowShift(x: nat, y: nat, k: nat, n: nat)
    requires n < k
    ensures Bit(x + Pow2(k) * y, n) == Bit(x, n)
  {
    var m := Pow2(k - 1) * y;
    assert Pow2(k) * y == 2 * m;
    if n > 0 {
      assert (x + 2 * m) / 2 == x / 2 + m;
      BitBelowShift(x / 2, y, k - 1, n - 1);
    }
  }

  /** Above k, the bits of x + 2^k * y are those of y when x < 2^k. */
  lemma {:induction false} BitAboveShift(x: nat, y: nat, k: nat, n: nat)
    requires x < Pow2(k) && k <= n
    ensures Bit(x + Pow2(k) * y, n) == Bit(y, n - k)
  {
    if k > 0 {
      var m := Pow2(k - 1) * y;
      assert Pow2(k) * y == 2 * m;
      assert (x + 2 * m) / 2 == x / 2 + m;
      BitAboveShift(x / 2, y, k - 1, n - 1);
    }
  }

  /** Bits 0-7 of a little-endian field come from its first byte and bits
      8-15 from its second. */
  lemma Le16Bit(lo: Byte, hi: Byte, n: nat)
    requires n < 16
    ensures Bit(Le16(lo, hi), n) == if n < 8 then Bit(lo, n) else Bit(hi, n - 8)
  {
    assert Pow2(8) == 0x100;
    if n < 8 {
      BitBelowShift(lo, hi, 8, n);
    } else {
      BitAboveShift(lo, hi, 8, n);
    }
  }

  /** Each named bit belongs to exactly one button. */
  lemma ButtonBitsDistinct(b: WheelButton, c: WheelButton)
    ensures BitOf(b) == BitOf(c) <==> b == c
  {
  }

  /** Dividing by 2 and then by m is dividing by 2 * m. */
  lemma DivTwice(w: nat, m: nat)
    requires m >= 1
    ensures (w / 2) / m == w / (2 * m)
  {
    var q, r := (w / 2) / m, (w / 2) % m;
    assert w == (2 * m) * q + (2 * r + w % 2);
    DivUnique(w, 2 * m, q, 2 * r + w % 2);
  }

  lemma DivUnique(x: nat, d: nat, q: nat, r: nat)
    requires d >= 1 && x == d * q + r && r < d
    ensures x / d == q
  {
    var q2, r2 := x / d, x % d;
    assert x == d * q2 + r2;
    if q > q2 {
      MulStep(d, q2, q - q2);
    } else if q < q2 {
      MulStep(d, q, q2 - q);
    }
  }

  lemma MulStep(d: nat, a: nat, k: nat)
    requires k >= 1
    ensures d * (a + k) >= d * a + d
  {
    assert d * (a + k) == d * a + d * k;
  }

  /** Bit n of w is the low bit of w / 2^n. */
  lemma {:induction false} BitByDivision(w: nat, n: nat)
    ensures Bit(w, n) <==> (w / Pow2(n)) % 2 == 1
  {
    if n > 0 {
      BitByDivision(w / 2, n - 1);
      DivTwice(w, Pow2(n - 1));
    }
  }

  /** Bit n of a button field w is the same as `w & BIT(n)` being nonzero. */
  lemma AndMaskIsBit(w: U16, b: WheelButton)
    ensures AndMask(w, b) == if Pressed(w, b) then Mask(b) else 0
    ensures AndMask(w, b) != 0 <==> Pressed(w, b)
    ensures NotNot(AndMask(w, b)) == if Pressed(w, b) then 1 else 0
  {
    var m := Mask(b);
    BitByDivision(w, BitOf(b));
    if (w / m) % 2 == 1 {
      assert AndMask(w, b) == 1 * m;
    } else {
      assert AndMask(w, b) == 0 * m;
    }
  }

  // ---------------------------------------------------------------------
  // Layout

  /** Parsing the wire image of a report gives the report back. */
  lemma ParseEncode(p: InputPacket)
    ensures Parse(Encode(p)) == p
  {
  }

  /** Re-encoding a parsed report gives back exactly the first PacketSize
      bytes of the frame. */
  lemma EncodeParse(data: seq<Byte>)
    requires |data| >= PacketSize
    ensures Encode(Parse(data)) == data[..PacketSize]
  {
    var e := Encode(Parse(data));
    forall k | 0 <= k < PacketSize / 2
      ensures e[2 * k] == data[2 * k] && e[2 * k + 1] == data[2 * k + 1]
    {
      Le16Split(data[2 * k], data[2 * k + 1]);
    }
    forall i | 0 <= i < PacketSize
      ensures e[i] == data[i]
    {
      assert i == 2 * (i / 2) || i == 2 * (i / 2) + 1;
    }
  }

  /** A little-endian field splits back into its two bytes. */
  lemma Le16Split(lo: Byte, hi: Byte)
    ensures Le16(lo, hi) % 0x100 == lo && Le16(lo, hi) / 0x100 == hi
  {
  }

  /** Only the first PacketSize bytes of a frame affect what it decodes to. */
  lemma PrefixDetermines(a: seq<Byte>, b: seq<Byte>)
    requires |a| >= PacketSize && |b| >= PacketSize
    requires a[..PacketSize] == b[..PacketSize]
    ensures FrameEvents(Parse(a)) == FrameEvents(Parse(b))
  {
    forall i | 0 <= i < PacketSize
      ensures a[i] == b[i]
    {
      assert a[i] == a[..PacketSize][i];
    }
  }

  // ---------------------------------------------------------------------
  // Decoded events

  /** The decoded frame, event by event. */
  lemma FrameAt(p: InputPacket)
    ensures var es := FrameEvents(p);
      |es| == 15 &&
      (forall i :: 0 <= i < 8 ==> es[i] == KeyEvent(ReportedButtons[i].1, Pressed(p.buttons, ReportedButtons[i].0))) &&
      es[8] == AbsEvent(AbsX, p.steering) && es[9] == AbsEvent(AbsY, p.accelerator) &&
      es[10] == AbsEvent(AbsZ, p.brake) && es[11] == AbsEvent(AbsRZ, p.clutch) &&
      es[12] == AbsEvent(AbsHat0X, Hat(p.buttons, DpadR, DpadL)) &&
      es[13] == AbsEvent(AbsHat0Y, Hat(p.buttons, DpadD, DpadU)) &&
      es[14] == Syn
  {
  }

  /** The key events as the adapter emits them: one `w & BIT(n)` test per
      reported button, in table order. */
  lemma KeyEventsByMask(w: U16)
    ensures KeyEvents(w) ==
      [KeyEvent(BtnStart, AndMask(w, Menu) != 0), KeyEvent(BtnSelect, AndMask(w, View) != 0),
       KeyEvent(BtnA, AndMask(w, A) != 0), KeyEvent(BtnB, AndMask(w, B) != 0),
       KeyEvent(BtnX, AndMask(w, X) != 0), KeyEvent(BtnY, AndMask(w, Y) != 0),
       KeyEvent(BtnTL, AndMask(w, BumperL) != 0), KeyEvent(BtnTR, AndMask(w, BumperR) != 0)]
  {
    AndMaskIsBit(w, Menu); AndMaskIsBit(w, View); AndMaskIsBit(w, A); AndMaskIsBit(w, B);
    AndMaskIsBit(w, X); AndMaskIsBit(w, Y); AndMaskIsBit(w, BumperL); AndMaskIsBit(w, BumperR);
    KeyEventsListed(w);
  }

  /** The key events, listed in table order. */
  lemma KeyEventsListed(w: U16)
    ensures KeyEvents(w) ==
      [KeyEvent(BtnStart, Pressed(w, Menu)), KeyEvent(BtnSelect, Pressed(w, View)),
       KeyEvent(BtnA, Pressed(w, A)), KeyEvent(BtnB, Pressed(w, B)),
       KeyEvent(BtnX, Pressed(w, X)), KeyEvent(BtnY, Pressed(w, Y)),
       KeyEvent(BtnTL, Pressed(w, BumperL)), KeyEvent(BtnTR, Pressed(w, BumperR))]
  {
  }

  /** The axis events as the adapter emits them: the raw fields, and
      `!!(w & right) - !!(w & left)` and `!!(w & down) - !!(w & up)` for
      the hats. */
  lemma AxisEventsByMask(p: InputPacket)
    ensures AxisEvents(p) ==
      [AbsEvent(AbsX, p.steering), AbsEvent(AbsY, p.accelerator),
       AbsEvent(AbsZ, p.brake), AbsEvent(AbsRZ, p.clutch),
       AbsEvent(AbsHat0X, NotNot(AndMask(p.buttons, DpadR)) - NotNot(AndMask(p.buttons, DpadL))),
       AbsEvent(AbsHat0Y, NotNot(AndMask(p.buttons, DpadD)) - NotNot(AndMask(p.buttons, DpadU)))]
  {
    AndMaskIsBit(p.buttons, DpadR);
    AndMaskIsBit(p.buttons, DpadL);
    AndMaskIsBit(p.buttons, DpadD);
    AndMaskIsBit(p.buttons, DpadU);
  }

  /** Every frame decodes to the same fifteen codes in the same order. */
  lemma FrameShape(p: InputPacket)
    ensures |FrameEvents(p)| == |FrameCodes| == 15
    ensures forall i :: 0 <= i < 15 ==> CodeOf(FrameEvents(p)[i]) == FrameCodes[i]
  {
  }

  /** The eight key events, with the bit position each one reads. */
  lemma ButtonMapping(p: InputPacket)
    ensures FrameEvents(p)[..8] ==
      [KeyEvent(BtnStart, Bit(p.buttons, 2)), KeyEvent(BtnSelect, Bit(p.buttons, 3)),
       KeyEvent(BtnA, Bit(p.buttons, 4)), KeyEvent(BtnB, Bit(p.buttons, 5)),
       KeyEvent(BtnX, Bit(p.buttons, 6)), KeyEvent(BtnY, Bit(p.buttons, 7)),
       KeyEvent(BtnTL, Bit(p.buttons, 12)), KeyEvent(BtnTR, Bit(p.buttons, 13))]
  {
  }

  /** The linear axes pass the raw field values through, and the hat axes
      are right minus left and down minus up. */
  lemma AxisMapping(p: InputPacket)
    ensures FrameEvents(p)[8..] ==
      [AbsEvent(AbsX, p.steering), AbsEvent(AbsY, p.accelerator),
       AbsEvent(AbsZ, p.brake), AbsEvent(AbsRZ, p.clutch),
       AbsEvent(AbsHat0X, (if Bit(p.buttons, 11) then 1 else 0) - (if Bit(p.buttons, 10) then 1 else 0)),
       AbsEvent(AbsHat0Y, (if Bit(p.buttons, 9) then 1 else 0) - (if Bit(p.buttons, 8) then 1 else 0)),
       Syn]
  {
  }

  /** Hat values are -1, 0 or 1; both opposing bits pressed cancel to 0. */
  lemma HatTable(w: U16, plus: WheelButton, minus: WheelButton)
    ensures -1 <= Hat(w, plus, minus) <= 1
    ensures Hat(w, plus, minus) == 1 <==> Pressed(w, plus) && !Pressed(w, minus)
    ensures Hat(w, plus, minus) == -1 <==> !Pressed(w, plus) && Pressed(w, minus)
    ensures Hat(w, plus, minus) == 0 <==> (Pressed(w, plus) <==> Pressed(w, minus))
  {
  }

  /** The button and hat events read the frame's first two bytes directly:
      START..Y are bits 2-7 of byte 0, TL and TR bits 4-5 of byte 1, and the
      D-pad up, down, left, right bits 0-3 of byte 1. */
  lemma FrameFromBytes(data: seq<Byte>)
    requires |data| >= PacketSize
    ensures var es := FrameEvents(Parse(data));
      es[..8] ==
        [KeyEvent(BtnStart, Bit(data[0], 2)), KeyEvent(BtnSelect, Bit(data[0], 3)),
         KeyEvent(BtnA, Bit(data[0], 4)), KeyEvent(BtnB, Bit(data[0], 5)),
         KeyEvent(BtnX, Bit(data[0], 6)), KeyEvent(BtnY, Bit(data[0], 7)),
         KeyEvent(BtnTL, Bit(data[1], 4)), KeyEvent(BtnTR, Bit(data[1], 5))] &&
      es[12] == AbsEvent(AbsHat0X, (if Bit(data[1], 3) then 1 else 0) - (if Bit(data[1], 2) then 1 else 0)) &&
      es[13] == AbsEvent(AbsHat0Y, (if Bit(data[1], 1) then 1 else 0) - (if Bit(data[1], 0) then 1 else 0))
    ensures var p := Parse(data);
      p.steering == data[2] as int + 0x100 * (data[3] as int) && p.accelerator == data[4] as int + 0x100 * (data[5] as int) &&
      p.brake == data[6] as int + 0x100 * (data[7] as int) && p.clutch == data[8] as int + 0x100 * (data[9] as int)
  {
    var lo, hi := data[0], data[1];
    forall n | 2 <= n < 8 ensures Bit(Le16(lo, hi), n) == Bit(lo, n) { Le16Bit(lo, hi, n); }
    forall n | 8 <= n < 14 ensures Bit(Le16(lo, hi), n) == Bit(hi, n - 8) { Le16Bit(lo, hi, n); }
    ButtonMapping(Parse(data));
    AxisMapping(Parse(data));
  }

  /** Bits 0, 1, 14 and 15 of the button field affect no event. */
  lemma UnnamedBitsIgnored(p: InputPacket, q: InputPacket)
    requires p.steering == q.steering && p.accelerator == q.accelerator
    requires p.brake == q.brake && p.clutch == q.clutch
    requires forall n :: 2 <= n < 14 ==> (Bit(p.buttons, n) <==> Bit(q.buttons, n))
    ensures FrameEvents(p) == FrameEvents(q)
  {
    forall b: WheelButton ensures Pressed(p.buttons, b) == Pressed(q.buttons, b) {
      assert 2 <= BitOf(b) < 14;
    }
    assert KeyEvents(p.buttons) == KeyEvents(q.buttons);
  }

  /** Bits 8-11 (the D-pad) affect only the two hat events. */
  lemma DpadOnlyMovesHats(p: InputPacket, q: InputPacket)
    requires p.steering == q.steering && p.accelerator == q.accelerator
    requires p.brake == q.brake && p.clutch == q.clutch
    requires forall n :: (n < 8 || 12 <= n) ==> (Bit(p.buttons, n) <==> Bit(q.buttons, n))
    ensures FrameEvents(p)[..12] == FrameEvents(q)[..12]
    ensures FrameEvents(p)[14] == FrameEvents(q)[14]
  {
    forall i | 0 <= i < |ReportedButtons|
      ensures Pressed(p.buttons, ReportedButtons[i].0) == Pressed(q.buttons, ReportedButtons[i].0)
    {
      var n := BitOf(ReportedButtons[i].0);
      assert n < 8 || 12 <= n;
    }
    assert KeyEvents(p.buttons) == KeyEvents(q.buttons);
  }

  /** In a button field holding one reported button's bit alone, that
      button and no other reported button is pressed. */
  lemma OnlyThatButton(i: nat, j: nat)
    requires i < |ReportedButtons| && j < |ReportedButtons|
    ensures Pressed(Mask(ReportedButtons[i].0), ReportedButtons[j].0) == (i == j)
  {
    var b, c := ReportedButtons[i].0, ReportedButtons[j].0;
    BitOfPow2(BitOf(b), BitOf(c));
    ButtonBitsDistinct(b, c);
    ReportedButtonsDistinct(i, j);
  }

  /** No button is reported twice, and no key is reported for two buttons. */
  lemma ReportedButtonsDistinct(i: nat, j: nat)
    requires i < |ReportedButtons| && j < |ReportedButtons|
    ensures ReportedButtons[i].0 == ReportedButtons[j].0 <==> i == j
    ensures ReportedButtons[i].1 == ReportedButtons[j].1 <==> i == j
  {
  }

  /** A report with exactly one reported button's bit set and zero axes
      presses exactly that button's key and releases the others. */
  lemma SingleButton(i: nat)
    requires i < |ReportedButtons|
    ensures var p := InputPacket(Mask(ReportedButtons[i].0), 0, 0, 0, 0);
      forall j :: 0 <= j < |ReportedButtons| ==>
        FrameEvents(p)[j] == KeyEvent(ReportedButtons[j].1, i == j)
  {
    var p := InputPacket(Mask(ReportedButtons[i].0), 0, 0, 0, 0);
    FrameAt(p);
    forall j | 0 <= j < |ReportedButtons|
      ensures FrameEvents(p)[j] == KeyEvent(ReportedButtons[j].1, i == j)
    {
      OnlyThatButton(i, j);
    }
  }

  /** A frame with the A and B bits set and all axes at zero. */
  lemma ExampleFrame()
    ensures FrameEvents(Parse([0x30, 0, 0, 0, 0, 0, 0, 0, 0, 0])) ==
      [KeyEvent(BtnStart, false), KeyEvent(BtnSelect, false), KeyEvent(BtnA, true),
       KeyEvent(BtnB, true), KeyEvent(BtnX, false), KeyEvent(BtnY, false),
       KeyEvent(BtnTL, false), KeyEvent(BtnTR, false),
       AbsEvent(AbsX, 0), AbsEvent(AbsY, 0), AbsEvent(AbsZ, 0), AbsEvent(AbsRZ, 0),
       AbsEvent(AbsHat0X, 0), AbsEvent(AbsHat0Y, 0), Syn]
  {
    var p := Parse([0x30, 0, 0, 0, 0, 0, 0, 0, 0, 0]);
    assert p == InputPacket(0x30, 0, 0, 0, 0);
    assert Bit(0x30, 4) && Bit(0x30, 5);
    assert !Bit(0x30, 2) && !Bit(0x30, 3) && !Bit(0x30, 6) && !Bit(0x30, 7);
    assert !Bit(0x30, 8) && !Bit(0x30, 9) && !Bit(0x30, 10) && !Bit(0x30, 11);
    assert !Bit(0x30, 12) && !Bit(0x30, 13);
    ButtonMapping(p);
    AxisMapping(p);
  }
}
