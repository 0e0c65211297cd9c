/**
 The Setting frame as bytes: what build_frame makes of the rendered fields is the
 frame text that the parser reads. Texts are those of ASCII.
 */
module SettingWire {
  import opened Options
  import opened Crc
  import Frame
  import FrameCodec
  import opened XmlFields
  import opened SettingFrame
  import TwinModel

  predicate IsAscii(s: string) {
    forall i :: 0 <= i < |s| ==> s[i] < 128 as char
  }

  function ByteOf(c: char): byte
    requires c < 128 as char
  {
    (c as int) as bv8
  }

  function AsBytes(s: string): (b: Bytes)
    requires IsAscii(s)
    ensures |b| == |s|
  {
    seq(|s|, i requires 0 <= i < |s| => ByteOf(s[i]))
  }

  lemma MarkBytes(c: char)
    requires c < 128 as char
    ensures ByteOf(c) == 0x3C ==> c == '<'
    ensures ByteOf(c) == 0x43 ==> c == 'C'
    ensures ByteOf(c) == 0x52 ==> c == 'R'
    ensures ByteOf(c) == 0x3E ==> c == '>'
  {
  }

  lemma JoinBytes(a: string, b: string)
    requires IsAscii(a) && IsAscii(b)
    ensures IsAscii(a + b) && AsBytes(a + b) == AsBytes(a) + AsBytes(b)
  {
  }

  lemma Marks()
    ensures AsBytes("<Frame>") == Frame.FRAME_OPEN && AsBytes("</Frame>") == Frame.FRAME_END
    ensures AsBytes("<CRC>") == Frame.CRC_OPEN && AsBytes("</CRC>") == Frame.CRC_END
    ensures AsBytes("\r\n") == [Frame.CR, Frame.LF]
  {
    FrameOpenMark();
    FrameEndMark();
    CrcMarks();
    assert ByteOf('\r') == Frame.CR && ByteOf('\n') == Frame.LF;
  }

  lemma FrameOpenMark()
    ensures AsBytes("<Frame>") == Frame.FRAME_OPEN
  {
    assert ByteOf('<') == 0x3C && ByteOf('>') == 0x3E;
    assert ByteOf('F') == 0x46 && ByteOf('r') == 0x72 && ByteOf('a') == 0x61;
    assert ByteOf('m') == 0x6D && ByteOf('e') == 0x65;
  }

  lemma FrameEndMark()
    ensures AsBytes("</Frame>") == Frame.FRAME_END
  {
    assert ByteOf('<') == 0x3C && ByteOf('/') == 0x2F && ByteOf('>') == 0x3E;
    assert ByteOf('F') == 0x46 && ByteOf('r') == 0x72 && ByteOf('a') == 0x61;
    assert ByteOf('m') == 0x6D && ByteOf('e') == 0x65;
  }

  lemma CrcMarks()
    ensures AsBytes("<CRC>") == Frame.CRC_OPEN && AsBytes("</CRC>") == Frame.CRC_END
  {
    assert ByteOf('<') == 0x3C && ByteOf('/') == 0x2F && ByteOf('>') == 0x3E;
    assert ByteOf('C') == 0x43 && ByteOf('R') == 0x52;
  }

  // ---- No CRC tag among the fields ----

  lemma {:induction false} NoOtherMark(items: seq<Item>, name: string)
    requires GoodItems(items) && IsTag(name) && forall i :: 0 <= i < |items| ==> items[i].tag != name
    ensures AfterMark(Render(items), Opening(name)) == None
    decreases |items|
  {
    if items != [] {
      RenderCons(items, "");
      assert Render(items) + "" == Render(items) && Render(items[1..]) + "" == Render(items[1..]);
      AfterOtherMark(items[0], name, Render(items[1..]));
      NoOtherMark(items[1..], name);
    }
  }

  lemma CrcOpensText(s: string)
    requires IsAscii(s) && FrameCodec.StartsWith(AsBytes(s), Frame.CRC_OPEN)
    ensures StartsWith(s, "<CRC>")
  {
    forall i | 0 <= i < 5 ensures s[i] == "<CRC>"[i] {
      assert AsBytes(s)[i] == AsBytes(s)[0..5][i] == Frame.CRC_OPEN[i];
      MarkBytes(s[i]);
    }
  }

  lemma {:induction false} NoMarkNoTag(s: string)
    requires IsAscii(s) && AfterMark(s, "<CRC>") == None
    ensures FrameCodec.NoCrcTag(AsBytes(s))
    decreases |s|
  {
    if s != "" {
      if FrameCodec.StartsWith(AsBytes(s), Frame.CRC_OPEN) { CrcOpensText(s); }
      assert AsBytes(s)[1..] == AsBytes(s[1..]);
      NoMarkNoTag(s[1..]);
    }
  }

  // ---- The CRC as a text ----

  function DecimalText(n: nat, width: nat): (s: string)
    ensures |s| == width
    decreases width, n
  {
    if width == 0 then "" else DecimalText(n / 10, width - 1) + ["0123456789"[n % 10]]
  }

  lemma DigitByte(k: nat)
    requires k < 10
    ensures "0123456789"[k] < 128 as char && ByteOf("0123456789"[k]) == Frame.DIGITS[k]
    ensures "0123456789"[k] != '<'
  {
  }

  lemma {:induction false} DecimalBytes(n: nat, width: nat)
    ensures IsAscii(DecimalText(n, width)) && NoLt(DecimalText(n, width))
    ensures AsBytes(DecimalText(n, width)) == FrameCodec.Decimal(n, width)
    decreases width
  {
    if width > 0 {
      DecimalBytes(n / 10, width - 1);
      DigitByte(n % 10);
      JoinBytes(DecimalText(n / 10, width - 1), ["0123456789"[n % 10]]);
    }
  }

  // ---- The fields as a text ----

  predicate AsciiItems(items: seq<Item>) {
    forall i :: 0 <= i < |items| ==> IsAscii(items[i].tag) && IsAscii(items[i].value)
  }

  lemma TaggedBytes(it: Item)
    requires IsAscii(it.tag) && IsAscii(it.value)
    ensures IsAscii(Tagged(it))
  {
    JoinBytes(it.tag, ">");
    JoinBytes("</", it.tag + ">");
  }

  lemma {:induction false} RenderAscii(items: seq<Item>)
    requires AsciiItems(items)
    ensures IsAscii(Render(items))
    decreases |items|
  {
    if items != [] {
      TaggedBytes(items[0]);
      RenderAscii(items[1..]);
      JoinBytes(Tagged(items[0]), Render(items[1..]));
    }
  }

  lemma {:induction false} RenderLast(items: seq<Item>, it: Item)
    ensures Render(items + [it]) == Render(items) + Tagged(it)
    decreases |items|
  {
    if items == [] {
      assert items + [it] == [it] && [it][1..] == [];
      assert Render([it]) == Tagged(it) + "" && "" + Tagged(it) == Tagged(it);
    } else {
      assert (items + [it])[1..] == items[1..] + [it];
      RenderLast(items[1..], it);
      Assoc(Tagged(items[0]), Render(items[1..]), Tagged(it));
    }
  }

  /** The parts of the frame text of some fields followed by a CRC field. */
  lemma FrameTextParts(inner: string, crc: string)
    ensures "<" + ("Frame" + (">" + ((inner + Tagged(Item("CRC", crc))) + "</Frame>\r\n")))
         == "<Frame>" + inner + ("<CRC>" + crc + "</CRC>") + "</Frame>" + "\r\n"
  {
  }

  lemma BytesOfParts(inner: string, crc: string)
    requires IsAscii(inner) && IsAscii(crc)
    ensures var text := "<Frame>" + inner + ("<CRC>" + crc + "</CRC>") + "</Frame>" + "\r\n";
            IsAscii(text) && AsBytes(text)
              == AsBytes("<Frame>") + AsBytes(inner) + (AsBytes("<CRC>") + AsBytes(crc) + AsBytes("</CRC>"))
                 + AsBytes("</Frame>") + AsBytes("\r\n")
  {
    var tag := "<CRC>" + crc + "</CRC>";
    JoinBytes("<CRC>", crc);
    JoinBytes("<CRC>" + crc, "</CRC>");
    JoinBytes("<Frame>", inner);
    JoinBytes("<Frame>" + inner, tag);
    JoinBytes("<Frame>" + inner + tag, "</Frame>");
    JoinBytes("<Frame>" + inner + tag + "</Frame>", "\r\n");
  }

  lemma NoCrcInItems(items: seq<Item>)
    requires GoodItems(items) && IsAscii(Render(items)) && forall i :: 0 <= i < |items| ==> items[i].tag != "CRC"
    ensures FrameCodec.NoCrcTag(AsBytes(Render(items)))
  {
    CrcName();
    NoOtherMark(items, "CRC");
    NoMarkNoTag(Render(items));
  }

  lemma CrcName()
    ensures IsTag("CRC") && Opening("CRC") == "<CRC>"
  {
  }

  /** build_frame on rendered fields without a CRC field gives the frame text of the fields and the CRC. */
  lemma BuildOfItems(items: seq<Item>, crc: string)
    requires GoodItems(items) && AsciiItems(items) && forall i :: 0 <= i < |items| ==> items[i].tag != "CRC"
    requires IsAscii(Render(items))
    requires crc == DecimalText(FrameCodec.CrcNumber(AsBytes(Render(items))), 5)
    ensures var text := FrameText(items + [Item("CRC", crc)]);
            IsAscii(text) && AsBytes(text) == FrameCodec.Build(AsBytes(Render(items)))
    ensures FrameCodec.NoCrcTag(AsBytes(Render(items)))
  {
    NoCrcInItems(items);
    RenderLast(items, Item("CRC", crc));
    BuildOfText(Render(items), crc);
  }

  lemma BuildOfText(inner: string, crc: string)
    requires IsAscii(inner) && FrameCodec.NoCrcTag(AsBytes(inner))
    requires crc == DecimalText(FrameCodec.CrcNumber(AsBytes(inner)), 5)
    ensures var text := "<" + ("Frame" + (">" + ((inner + Tagged(Item("CRC", crc))) + "</Frame>\r\n")));
            IsAscii(text) && AsBytes(text) == FrameCodec.Build(AsBytes(inner))
  {
    var b := AsBytes(inner);
    FrameCodec.StripShortens(b);
    DecimalBytes(FrameCodec.CrcNumber(b), 5);
    FrameTextParts(inner, crc);
    BytesOfParts(inner, crc);
    Marks();
    BuildOfPlain(b, AsBytes(crc));
  }

  lemma BuildOfPlain(b: Bytes, digits: Bytes)
    requires FrameCodec.Strip(b) == b && digits == FrameCodec.FiveDigits(FrameCodec.CrcNumber(b))
    ensures FrameCodec.Build(b)
         == Frame.FRAME_OPEN + b + (Frame.CRC_OPEN + digits + Frame.CRC_END) + Frame.FRAME_END + [Frame.CR, Frame.LF]
  {
  }

  // ---- The Setting frame ----

  predicate AsciiSetting(f: Setting) {
    IsAscii(f.table) && IsAscii(f.key) && IsAscii(f.confirm) && IsAscii(f.dt) && IsAscii(f.tsec) && IsAscii(f.ver)
  }

  /** The fields that build_setting_frame hands to build_frame. */
  function InnerItems(f: Setting): seq<Item> {
    SettingItems(f)[..14]
  }

  lemma {:induction false} DigitsAscii(n: nat)
    ensures IsAscii(TwinModel.Digits(n))
    decreases n
  {
    DigitByte(n % 10);
    if n >= 10 { DigitsAscii(n / 10); }
  }

  lemma IntTextAscii(n: int)
    ensures IsAscii(IntText(n))
  {
    DigitsAscii(if n < 0 then -n else n);
  }

  lemma InnerItemsAscii(f: Setting)
    requires Plain(f) && AsciiSetting(f)
    ensures AsciiItems(InnerItems(f))
  {
    var items := SettingItems(f);
    forall i | 0 <= i < 14 ensures IsAscii(items[i].tag) && IsAscii(items[i].value) {
      TagsAscii(f, i);
      ValuesAscii(f, i);
    }
  }

  lemma TagsAscii(f: Setting, i: nat)
    requires i < 15
    ensures IsAscii(SettingItems(f)[i].tag)
  {
  }

  lemma ValuesAscii(f: Setting, i: nat)
    requires Plain(f) && AsciiSetting(f) && i < 14
    ensures IsAscii(SettingItems(f)[i].value)
  {
    if i == 0 { IntTextAscii(f.msgId); }
    if i == 2 { IntTextAscii(f.idSet); }
    if i == 5 { IntTextAscii(f.value); }
    assert IsAscii(f.deviceId) && IsAscii("0") && IsAscii("9") && IsAscii("Setting");
  }

  lemma InnerItemsGood(f: Setting)
    requires Plain(f)
    ensures GoodItems(InnerItems(f)) && forall i :: 0 <= i < |InnerItems(f)| ==> InnerItems(f)[i].tag != "CRC"
  {
    SettingItemsGood(f);
    TagsDiffer(f);
    assert SettingItems(f)[14].tag == "CRC";
  }

  /**
   The bytes of a Setting frame whose CRC field is that of its other fields are
   what build_frame makes of those fields, and parse_frame gives them back.
   */
  lemma BuiltSettingFrame(f: Setting)
    requires Plain(f) && AsciiSetting(f) && IsAscii(Render(InnerItems(f)))
    requires f.crc == DecimalText(FrameCodec.CrcNumber(AsBytes(Render(InnerItems(f)))), 5)
    ensures IsAscii(FrameText(SettingItems(f)))
    ensures AsBytes(FrameText(SettingItems(f))) == FrameCodec.Build(AsBytes(Render(InnerItems(f))))
    ensures FrameCodec.ParseFrame(AsBytes(FrameText(SettingItems(f)))) == Some(AsBytes(Render(InnerItems(f))))
  {
    InnerItemsAscii(f);
    InnerItemsGood(f);
    BuildOfItems(InnerItems(f), f.crc);
    assert SettingItems(f) == InnerItems(f) + [Item("CRC", f.crc)];
    FrameCodec.RoundTripIffNoTag(AsBytes(Render(InnerItems(f))));
  }

  /** Every plain ASCII Setting has such a CRC field. */
  lemma CrcFieldExists(f: Setting) returns (g: Setting)
    requires Plain(f) && AsciiSetting(f)
    ensures Plain(g) && AsciiSetting(g) && g == f.(crc := g.crc) && IsAscii(Render(InnerItems(g)))
    ensures g.crc == DecimalText(FrameCodec.CrcNumber(AsBytes(Render(InnerItems(g)))), 5)
  {
    InnerItemsAscii(f);
    RenderAscii(InnerItems(f));
    var n := FrameCodec.CrcNumber(AsBytes(Render(InnerItems(f))));
    DecimalBytes(n, 5);
    g := f.(crc := DecimalText(n, 5));
    assert InnerItems(g) == InnerItems(f);
  }
}
