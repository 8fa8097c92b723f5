/** The input surface the wheel declares before registering its input
    device, and how the decoded events relate to it. */
module WheelCaps {
  import opened InputCore
  import opened WheelReport

  const WheelName: string := "Microsoft X-Box One wheel"

  /** The nine keys declared: the guide button and the eight reported buttons. */
  const DeclaredKeys: set<Key> :=
    {BtnMode, BtnStart, BtnSelect, BtnA, BtnB, BtnX, BtnY, BtnTL, BtnTR}

  /** The six axes declared, with range, fuzz and flat. */
  const DeclaredAbs: map<Axis, AbsInfo> :=
    map[AbsX := AbsInfo(0, 65535, 16, 128),
        AbsY := AbsInfo(0, 1023, 0, 0),
        AbsZ := AbsInfo(0, 1023, 0, 0),
        AbsRZ := AbsInfo(0, 1023, 0, 0),
        AbsHat0X := AbsInfo(-1, 1, 0, 0),
        AbsHat0Y := AbsInfo(-1, 1, 0, 0)]

  /** Declaring the nine keys one after another adds exactly DeclaredKeys. */
  lemma DeclaredKeysUpdates(k: set<Key>)
    ensures k + {BtnMode} + {BtnStart} + {BtnSelect} + {BtnA} + {BtnB} + {BtnX} + {BtnY} + {BtnTL} + {BtnTR}
            == k + DeclaredKeys
  {
  }

  /** Declaring the six axes one after another, over any earlier
      declarations, leaves the earlier ones overridden by DeclaredAbs. */
  lemma DeclaredAbsUpdates(m: map<Axis, AbsInfo>)
    ensures m[AbsX := AbsInfo(0, 65535, 16, 128)][AbsY := AbsInfo(0, 1023, 0, 0)]
             [AbsZ := AbsInfo(0, 1023, 0, 0)][AbsRZ := AbsInfo(0, 1023, 0, 0)]
             [AbsHat0X := AbsInfo(-1, 1, 0, 0)][AbsHat0Y := AbsInfo(-1, 1, 0, 0)]
            == m + DeclaredAbs
  {
    var l := m[AbsX := AbsInfo(0, 65535, 16, 128)][AbsY := AbsInfo(0, 1023, 0, 0)]
              [AbsZ := AbsInfo(0, 1023, 0, 0)][AbsRZ := AbsInfo(0, 1023, 0, 0)]
              [AbsHat0X := AbsInfo(-1, 1, 0, 0)][AbsHat0Y := AbsInfo(-1, 1, 0, 0)];
    var r := m + DeclaredAbs;
    forall a: Axis ensures a in l && a in r && l[a] == r[a] {
      match a
      case AbsX => case AbsY => case AbsZ => case AbsRZ => case AbsHat0X => case AbsHat0Y =>
    }
    assert l.Keys == r.Keys;
  }

  /** Declaring the wheel's capabilities on a fresh device leaves exactly
      the wheel's capabilities. */
  lemma DeclaredOnFresh()
    ensures {} + DeclaredKeys == DeclaredKeys
    ensures map[] + DeclaredAbs == DeclaredAbs
  {
    assert (map[] + DeclaredAbs).Keys == DeclaredAbs.Keys;
  }

  /** Every key a decoded frame reports is declared and is not the guide
      button, and every axis it reports is declared. */
  lemma FrameUsesDeclaredCodes(p: InputPacket)
    ensures forall e :: e in FrameEvents(p) && e.KeyEvent? ==> e.key in DeclaredKeys && e.key != BtnMode
    ensures forall e :: e in FrameEvents(p) && e.AbsEvent? ==> e.axis in DeclaredAbs
  {
    var es := FrameEvents(p);
    FrameAt(p);
    ReportedKeysDeclared();
    forall e | e in es
      ensures e.KeyEvent? ==> e.key in DeclaredKeys && e.key != BtnMode
      ensures e.AbsEvent? ==> e.axis in DeclaredAbs
    {
      var i :| 0 <= i < |es| && es[i] == e;
      if i < 8 {
        assert e.key == ReportedButtons[i].1;
      }
    }
  }

  /** Every declared key other than the guide button is reported by every
      frame, at the position of its button. */
  lemma DeclaredKeysReported(p: InputPacket, k: Key)
    requires k in DeclaredKeys && k != BtnMode
    ensures exists i ::
      0 <= i < |ReportedButtons| && FrameEvents(p)[i] == KeyEvent(k, Pressed(p.buttons, ReportedButtons[i].0))
  {
    FrameAt(p);
    var i := match k
      case BtnStart => 0 case BtnSelect => 1 case BtnA => 2 case BtnB => 3
      case BtnX => 4 case BtnY => 5 case BtnTL => 6 case _ => 7;
    assert FrameEvents(p)[i] == KeyEvent(k, Pressed(p.buttons, ReportedButtons[i].0));
  }

  /** The key of each reported button is declared, and is not the guide button. */
  lemma ReportedKeysDeclared()
    ensures forall i :: 0 <= i < |ReportedButtons| ==>
      ReportedButtons[i].1 in DeclaredKeys && ReportedButtons[i].1 != BtnMode
  {
  }

  /** The guide channel's key is declared. */
  lemma GuideUsesDeclaredKey(down: bool)
    ensures forall e :: e in GuideEvents(down) && e.KeyEvent? ==> e.key in DeclaredKeys
  {
  }

  /** Steering and the two hat axes always lie within their declared ranges. */
  lemma DeclaredRangesKept(p: InputPacket)
    ensures forall e :: e in FrameEvents(p) && e.AbsEvent? && e.axis in {AbsX, AbsHat0X, AbsHat0Y} ==>
      DeclaredAbs[e.axis].min <= e.value <= DeclaredAbs[e.axis].max
  {
    var es := FrameEvents(p);
    FrameAt(p);
    HatTable(p.buttons, DpadR, DpadL);
    HatTable(p.buttons, DpadD, DpadU);
    forall e | e in es && e.AbsEvent? && e.axis in {AbsX, AbsHat0X, AbsHat0Y}
      ensures DeclaredAbs[e.axis].min <= e.value <= DeclaredAbs[e.axis].max
    {
      var i :| 0 <= i < |es| && es[i] == e;
    }
  }

  /** The pedal axes are declared as 0..1023 but reported unclamped: any
      frame whose sixth byte is 4 or more reports an accelerator value above
      the declared maximum. */
  lemma PedalRangeNotEnforced(data: seq<Byte>)
    requires |data| >= PacketSize && data[5] >= 4
    ensures FrameEvents(Parse(data))[9] == AbsEvent(AbsY, Parse(data).accelerator)
    ensures Parse(data).accelerator > DeclaredAbs[AbsY].max
  {
    FrameAt(Parse(data));
  }
}
