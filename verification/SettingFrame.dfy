/**
 The Setting frame that carries a value to the Box, the parser that reads frame
 texts, and the extraction of message and setting numbers from them.
 */
module SettingFrame {
  import opened Options
  import opened XmlFields
  import opened TwinState
  import TwinModel

  // ---- Numbers in texts ----

  predicate IsSpace(c: char) {
    c == ' ' || '\t' <= c <= '\r' || 28 as char <= c <= 31 as char
  }

  function StripLeft(s: string): string {
    if s != "" && IsSpace(s[0]) then StripLeft(s[1..]) else s
  }

  function StripRight(s: string): string {
    if s != "" && IsSpace(s[|s| - 1]) then StripRight(s[..|s| - 1]) else s
  }

  function StripSign(s: string): string {
    if s != "" && (s[0] == '+' || s[0] == '-') then s[1..] else s
  }

  /** Digits, with single underscores between them. */
  predicate IsDigitPart(s: string) {
    && s != "" && IsDigit(s[0]) && IsDigit(s[|s| - 1])
    && (forall i :: 0 <= i < |s| ==> IsDigit(s[i]) || s[i] == '_')
    && (forall i :: 0 <= i < |s| - 1 ==> s[i] == '_' ==> s[i + 1] != '_')
  }

  function DigitOf(c: char): nat {
    if c == '1' then 1 else if c == '2' then 2 else if c == '3' then 3 else if c == '4' then 4
    else if c == '5' then 5 else if c == '6' then 6 else if c == '7' then 7 else if c == '8' then 8
    else if c == '9' then 9 else 0
  }

  function Magnitude(s: string): nat
    requires forall i :: 0 <= i < |s| ==> IsDigit(s[i]) || s[i] == '_'
  {
    if s == "" then 0
    else
      var n, c := Magnitude(s[..|s| - 1]), s[|s| - 1];
      if c == '_' then n else 10 * n + DigitOf(c)
  }

  /** int() on a text. */
  function ParseInt(text: string): Option<int> {
    var s := StripRight(StripLeft(text));
    var body := StripSign(s);
    if !IsDigitPart(body) then None
    else
      var n: int := Magnitude(body);
      Some(if s[0] == '-' then -n else n)
  }

  function ExponentAt(s: string): Option<nat> {
    if s == "" then None
    else if s[0] == 'e' || s[0] == 'E' then Some(0)
    else
      match ExponentAt(s[1..])
      case None => None
      case Some(i) => Some(i + 1)
  }

  function DotAt(s: string): Option<nat> {
    if s == "" then None
    else if s[0] == '.' then Some(0)
    else
      match DotAt(s[1..])
      case None => None
      case Some(i) => Some(i + 1)
  }

  /** Digits around a point, on at least one side of it. */
  predicate IsPointNumber(s: string) {
    match DotAt(s)
    case None => IsDigitPart(s)
    case Some(i) =>
      i < |s| && (s[..i] == "" || IsDigitPart(s[..i])) && (s[i + 1..] == "" || IsDigitPart(s[i + 1..])) && |s| > 1
  }

  /** float() accepts a text with a point in it. */
  predicate IsFloatText(text: string) {
    var s := StripSign(StripRight(StripLeft(text)));
    match ExponentAt(s)
    case None => IsPointNumber(s)
    case Some(i) => i < |s| && IsPointNumber(s[..i]) && IsDigitPart(StripSign(s[i + 1..]))
  }

  // ---- parse_xml_frame ----

  datatype Field = IntField(n: int) | FloatField(text: string) | TextField(text: string)

  function Convert(value: string): Field {
    if '.' in value then (if IsFloatText(value) then FloatField(value) else TextField(value))
    else
      match ParseInt(value)
      case Some(n) => IntField(n)
      case None => TextField(value)
  }

  predicate IsSkipped(tag: string) {
    tag in {"TblName", "ID_Device", "ID_Set", "Reason", "ver", "CRC", "DT", "ID_SubD"}
  }

  type Parsed = map<string, Field>

  function WithField(m: Parsed, it: Item): Parsed {
    if IsSkipped(it.tag) then m else m[it.tag := Convert(it.value)]
  }

  function AddFields(m: Parsed, items: seq<Item>): Parsed {
    if items == [] then m else WithField(AddFields(m, items[..|items| - 1]), items[|items| - 1])
  }

  function WithFound(m: Parsed, key: string, found: Option<string>): Parsed {
    if found.None? then m else m[key := TextField(found.value)]
  }

  /** The named fields that come before the data fields. */
  function Header(data: string): Parsed {
    WithFound(WithFound(WithFound(map[], "_table", Search(data, "TblName", false)),
                        "_device_id", Search(data, "ID_Device", true)),
              "_dt", Search(data, "DT", false))
  }

  /** A sub-device other than 0 is an inactive battery bank. */
  predicate IsInactiveBank(data: string) {
    match Search(data, "ID_SubD", true)
    case None => false
    case Some(digits) => ParseInt(digits).Some? && ParseInt(digits).value > 0
  }

  function ParseXml(data: string): Parsed {
    if IsInactiveBank(data) then map[] else AddFields(Header(data), FindAll(data))
  }

  method ParseXmlFrame(data: string) returns (result: Parsed)
    ensures result == ParseXml(data)
  {
    result := map[];
    var table := Search(data, "TblName", false);
    if table.Some? { result := result["_table" := TextField(table.value)]; }
    var device := Search(data, "ID_Device", true);
    if device.Some? { result := result["_device_id" := TextField(device.value)]; }
    var dt := Search(data, "DT", false);
    if dt.Some? { result := result["_dt" := TextField(dt.value)]; }
    var sub := Search(data, "ID_SubD", true);
    if sub.Some? {
      var id := ParseInt(sub.value);
      if id.Some? && id.value > 0 { return map[]; }
    }
    var items := FindAll(data);
    for i := 0 to |items|
      invariant result == AddFields(Header(data), items[..i])
    {
      assert items[..i + 1][..i] == items[..i];
      if !IsSkipped(items[i].tag) { result := result[items[i].tag := Convert(items[i].value)]; }
    }
    assert items[..|items|] == items;
  }

  /** _extract_id_set and _extract_msg_id: the number between two markers. */
  function NumberIn(text: string, tag: string): Option<int> {
    match AfterMark(text, Opening(tag))
    case None => None
    case Some(left) =>
      match BeforeMark(left, Closing(tag))
      case None => None
      case Some(digits) => ParseInt(digits)
  }

  predicate HasResult(m: Parsed, results: set<string>) {
    "Result" in m && m["Result"].TextField? && m["Result"].text in results
  }

  predicate IsTransportMetadata(key: string) {
    key in {"Confirm", "ID", "ID_Server", "NewValue", "Rdt", "Result", "TSec", "TblItem", "Tmr", "ToDo", "mytimediff"}
  }

  predicate IsPublishable(key: string) {
    !(key != "" && key[0] == '_') && !IsTransportMetadata(key)
  }

  /** _is_transport_frame: answers, polls without data of their own, and Setting frames. */
  predicate IsTransportFrame(m: Parsed) {
    if HasResult(m, {"ACK", "END"}) then true
    else if HasResult(m, {"IsNewSet", "IsNewWeather", "IsNewFW"}) then forall key :: key in m ==> !IsPublishable(key)
    else
      "TblItem" in m && "NewValue" in m
      && ("Confirm" in m || "ID" in m || "ID_Server" in m || "TSec" in m || "mytimediff" in m)
  }

  // ---- The Setting frame ----

  /** dt, tsec and ver are the printed civil time, UTC time and random version; crc is the CRC tag's text. */
  datatype Setting = Setting(
    deviceId: string, table: string, key: string, value: int, idSet: int, msgId: int, confirm: string,
    dt: string, tsec: string, ver: string, crc: string)

  function IntText(n: int): string {
    TwinModel.ValueText(IntValue(n))
  }

  function SettingItems(f: Setting): seq<Item> {
    [Item("ID", IntText(f.msgId)),
     Item("ID_Device", f.deviceId),
     Item("ID_Set", IntText(f.idSet)),
     Item("ID_SubD", "0"),
     Item("DT", f.dt),
     Item("NewValue", IntText(f.value)),
     Item("Confirm", f.confirm),
     Item("TblName", f.table),
     Item("TblItem", f.key),
     Item("ID_Server", "9"),
     Item("mytimediff", "0"),
     Item("Reason", "Setting"),
     Item("TSec", f.tsec),
     Item("ver", f.ver),
     Item("CRC", f.crc)]
  }

  /** The text of the built frame. */
  function FrameText(items: seq<Item>): string {
    "<" + ("Frame" + (">" + (Render(items) + "</Frame>\r\n")))
  }

  /** Nothing in the parts can be taken for a tag. */
  predicate Plain(f: Setting) {
    && AllDigits(f.deviceId)
    && NoLt(f.table) && NoLt(f.key) && NoLt(f.confirm) && f.table != ""
    && NoLt(f.dt) && f.dt != "" && NoLt(f.tsec) && NoLt(f.ver) && NoLt(f.crc)
  }

  // ---- Decimal texts ----

  lemma {:induction false} DigitsText(n: nat)
    ensures AllDigits(TwinModel.Digits(n)) && IsDigitPart(TwinModel.Digits(n))
    ensures Magnitude(TwinModel.Digits(n)) == n
    decreases n
  {
    var d := "0123456789"[n % 10];
    assert DigitOf(d) == n % 10 && IsDigit(d);
    if n < 10 {
      assert TwinModel.Digits(n) == [d];
    } else {
      DigitsText(n / 10);
      var s := TwinModel.Digits(n / 10);
      assert TwinModel.Digits(n) == s + [d];
      assert (s + [d])[..|s|] == s;
    }
  }

  lemma NoSpaces(s: string)
    requires s != "" && !IsSpace(s[0]) && !IsSpace(s[|s| - 1])
    ensures StripRight(StripLeft(s)) == s
  {
  }

  lemma NumeralReadsBack(digits: string, negative: bool, k: nat, s: string)
    requires IsDigitPart(digits) && AllDigits(digits) && Magnitude(digits) == k
    requires s == if negative then ['-'] + digits else digits
    ensures ParseInt(s) == Some(if negative then 0 - k else k)
    ensures NoLt(s) && s != "" && '.' !in s
  {
    if negative { assert s[1..] == digits; }
    NoSpaces(s);
  }

  /** A printed integer reads back. */
  lemma IntTextReadsBack(n: int)
    ensures ParseInt(IntText(n)) == Some(n)
    ensures NoLt(IntText(n)) && IntText(n) != "" && '.' !in IntText(n)
    ensures Convert(IntText(n)) == IntField(n)
  {
    var k: nat := if n < 0 then -n else n;
    DigitsText(k);
    NumeralReadsBack(TwinModel.Digits(k), n < 0, k, IntText(n));
  }

  // ---- Round trip ----

  lemma FrameTags()
    ensures IsTag("ID") && IsTag("ID_Device") && IsTag("ID_Set") && IsTag("ID_SubD") && IsTag("DT")
    ensures IsTag("NewValue") && IsTag("Confirm") && IsTag("TblName") && IsTag("TblItem") && IsTag("ID_Server")
    ensures IsTag("mytimediff") && IsTag("Reason") && IsTag("TSec") && IsTag("ver") && IsTag("CRC")
    ensures NoLt("0") && NoLt("9") && NoLt("Setting")
  {
  }

  lemma IntItem(tag: string, n: int)
    requires IsTag(tag)
    ensures GoodItem(Item(tag, IntText(n)))
  {
    IntTextReadsBack(n);
  }

  lemma SettingItemsGood(f: Setting)
    requires Plain(f)
    ensures GoodItems(SettingItems(f))
  {
    FrameTags();
    IntItem("ID", f.msgId);
    IntItem("ID_Set", f.idSet);
    IntItem("NewValue", f.value);
    DigitsHaveNoLt(f.deviceId);
    var items := SettingItems(f);
    assert GoodItem(items[0]) && GoodItem(items[1]) && GoodItem(items[2]) && GoodItem(items[3]);
    assert GoodItem(items[4]) && GoodItem(items[5]) && GoodItem(items[6]) && GoodItem(items[7]);
    assert GoodItem(items[8]) && GoodItem(items[9]) && GoodItem(items[10]) && GoodItem(items[11]);
    assert GoodItem(items[12]) && GoodItem(items[13]) && GoodItem(items[14]);
  }

  lemma DigitsHaveNoLt(s: string)
    requires AllDigits(s)
    ensures NoLt(s)
  {
  }

  lemma ClosingAlone(s: string, tag: string, digits: bool)
    requires |s| >= 2 && s[0] == '<' && s[1] == '/' && NoLt(s[1..])
    ensures FindAll(s) == [] && Search(s, tag, digits) == None
  {
    MatchClosing(s);
    assert s[1..] + "" == s[1..];
    SkipPlain(s[1..], "", tag, digits, "<>");
  }

  lemma EndOfFrame(tag: string, digits: bool)
    ensures FindAll("</Frame>\r\n") == [] && Search("</Frame>\r\n", tag, digits) == None
  {
    ClosingAlone("</Frame>\r\n", tag, digits);
  }

  /** The scans of a frame text see the items, and nothing of the frame around them. */
  lemma ScanFrame(items: seq<Item>, tag: string, digits: bool)
    requires GoodItems(items) && items != []
    ensures FindAll(FrameText(items)) == items
    ensures Search(FrameText(items), tag, digits) == FirstValue(items, tag, digits)
  {
    var body := Render(items) + "</Frame>\r\n";
    RenderStart(items, "</Frame>\r\n");
    MatchUnclosed("Frame", body);
    assert FrameText(items)[1..] == ("Frame" + ">") + body;
    SkipPlain("Frame" + ">", body, tag, digits, "<>");
    FindAllRendered(items, "</Frame>\r\n");
    SearchRendered(items, "</Frame>\r\n", tag, digits);
    EndOfFrame(tag, digits);
    assert items + [] == items;
  }

  lemma RenderStart(items: seq<Item>, rest: string)
    requires GoodItems(items) && items != []
    ensures |Render(items) + rest| >= 2 && (Render(items) + rest)[0] == '<' && (Render(items) + rest)[1] != '/'
  {
    RenderCons(items, rest);
    TaggedThen(items[0], Render(items[1..]) + rest);
    assert (Render(items) + rest)[1] == items[0].tag[0];
  }

  lemma NumberInFrame(items: seq<Item>, i: nat)
    requires GoodItems(items) && i < |items| && items[i].tag != "Frame"
    requires forall j :: 0 <= j < i ==> items[j].tag != items[i].tag
    ensures NumberIn(FrameText(items), items[i].tag) == ParseInt(items[i].value)
  {
    var body := Render(items) + "</Frame>\r\n";
    var mark := Opening(items[i].tag);
    OpeningIsOwn("Frame", items[i].tag, body);
    assert FrameText(items)[1..] == ("Frame" + ">") + body;
    SkipPlain("Frame" + ">", body, "", false, mark);
    AfterMarkRendered(items, "</Frame>\r\n", i);
    BeforeMarkOf(items[i].value, Closing(items[i].tag), Render(items[i + 1..]) + "</Frame>\r\n");
  }

  lemma {:induction false} FieldAt(m: Parsed, items: seq<Item>, i: nat)
    requires i < |items| && !IsSkipped(items[i].tag)
    requires forall j :: i < j < |items| ==> items[j].tag != items[i].tag
    ensures items[i].tag in AddFields(m, items) && AddFields(m, items)[items[i].tag] == Convert(items[i].value)
    decreases |items|
  {
    if i < |items| - 1 {
      var before := items[..|items| - 1];
      FieldAt(m, before, i);
      assert before[i] == items[i];
    }
  }

  lemma {:induction false} OtherKeysStay(m: Parsed, items: seq<Item>, key: string)
    requires forall j :: 0 <= j < |items| ==> items[j].tag != key
    ensures key in AddFields(m, items) <==> key in m
    ensures key in m ==> AddFields(m, items)[key] == m[key]
    decreases |items|
  {
    if items != [] { OtherKeysStay(m, items[..|items| - 1], key); }
  }

  /** The tags of a Setting frame are all different. */
  lemma TagsDiffer(f: Setting)
    ensures var items := SettingItems(f);
            forall i, j :: 0 <= i < j < |items| ==> items[i].tag != items[j].tag
  {
  }

  lemma {:induction false} FirstValueAt(items: seq<Item>, i: nat, digits: bool)
    requires i < |items| && forall j :: 0 <= j < i ==> items[j].tag != items[i].tag
    requires items[i].value != "" && (digits ==> AllDigits(items[i].value))
    ensures FirstValue(items, items[i].tag, digits) == Some(items[i].value)
    decreases i
  {
    if i > 0 {
      assert items[0].tag != items[i].tag;
      assert items[1..][i - 1] == items[i];
      FirstValueAt(items[1..], i - 1, digits);
    }
  }

  lemma SearchInSetting(f: Setting, i: nat, digits: bool)
    requires Plain(f) && i < |SettingItems(f)|
    requires SettingItems(f)[i].value != "" && (digits ==> AllDigits(SettingItems(f)[i].value))
    ensures Search(FrameText(SettingItems(f)), SettingItems(f)[i].tag, digits) == Some(SettingItems(f)[i].value)
  {
    SettingItemsGood(f);
    TagsDiffer(f);
    ScanFrame(SettingItems(f), SettingItems(f)[i].tag, digits);
    FirstValueAt(SettingItems(f), i, digits);
  }

  lemma HeaderOf(text: string, table: string, device: string, dt: string)
    requires Search(text, "TblName", false) == Some(table)
    requires Search(text, "ID_Device", true) == Some(device)
    requires Search(text, "DT", false) == Some(dt)
    ensures Header(text) == map["_table" := TextField(table), "_device_id" := TextField(device), "_dt" := TextField(dt)]
  {
  }

  /** What the header search finds in a Setting frame. */
  lemma HeaderOfSetting(f: Setting)
    requires Plain(f)
    ensures Header(FrameText(SettingItems(f)))
         == map["_table" := TextField(f.table), "_device_id" := TextField(f.deviceId), "_dt" := TextField(f.dt)]
  {
    SearchInSetting(f, 7, false);
    SearchInSetting(f, 1, true);
    SearchInSetting(f, 4, false);
    HeaderOf(FrameText(SettingItems(f)), f.table, f.deviceId, f.dt);
  }

  lemma SettingIsActive(f: Setting)
    requires Plain(f)
    ensures !IsInactiveBank(FrameText(SettingItems(f)))
  {
    var items := SettingItems(f);
    SettingItemsGood(f);
    TagsDiffer(f);
    ScanFrame(items, items[3].tag, true);
    FirstValueAt(items, 3, true);
    IntTextReadsBack(0);
  }

  /** None of the header keys, nor Result, is a tag of a Setting frame. */
  lemma KeysAreNotTags(f: Setting, i: nat)
    requires i < |SettingItems(f)|
    ensures SettingItems(f)[i].tag !in {"_table", "_device_id", "_dt", "Result"}
  {
  }

  lemma DataOfSetting(f: Setting, m: Parsed, i: nat)
    requires i < |SettingItems(f)| && !IsSkipped(SettingItems(f)[i].tag)
    ensures SettingItems(f)[i].tag in AddFields(m, SettingItems(f))
    ensures AddFields(m, SettingItems(f))[SettingItems(f)[i].tag] == Convert(SettingItems(f)[i].value)
  {
    TagsDiffer(f);
    FieldAt(m, SettingItems(f), i);
  }

  lemma HeaderStays(f: Setting, m: Parsed, key: string)
    requires key in {"_table", "_device_id", "_dt", "Result"}
    ensures key in AddFields(m, SettingItems(f)) <==> key in m
    ensures key in m ==> AddFields(m, SettingItems(f))[key] == m[key]
  {
    forall j | 0 <= j < |SettingItems(f)| ensures SettingItems(f)[j].tag != key {
      KeysAreNotTags(f, j);
    }
    OtherKeysStay(m, SettingItems(f), key);
  }

  lemma ParseOfSetting(f: Setting)
    requires Plain(f)
    ensures ParseXml(FrameText(SettingItems(f))) == AddFields(Header(FrameText(SettingItems(f))), SettingItems(f))
  {
    SettingItemsGood(f);
    ScanFrame(SettingItems(f), "", false);
    SettingIsActive(f);
  }

  /** The built frame, parsed. */
  function ParsedSetting(f: Setting): Parsed {
    ParseXml(FrameText(SettingItems(f)))
  }

  /** A data field of a parsed Setting frame. */
  lemma ParsedField(f: Setting, i: nat)
    requires Plain(f) && i < |SettingItems(f)| && !IsSkipped(SettingItems(f)[i].tag)
    ensures SettingItems(f)[i].tag in ParsedSetting(f)
    ensures ParsedSetting(f)[SettingItems(f)[i].tag] == Convert(SettingItems(f)[i].value)
  {
    ParseOfSetting(f);
    DataOfSetting(f, Header(FrameText(SettingItems(f))), i);
  }

  /** The header of a parsed Setting frame. */
  lemma ParsedHeader(f: Setting)
    requires Plain(f)
    ensures var m := ParsedSetting(f);
            && "_table" in m && m["_table"] == TextField(f.table)
            && "_device_id" in m && m["_device_id"] == TextField(f.deviceId)
            && "Result" !in m
  {
    var h := Header(FrameText(SettingItems(f)));
    ParseOfSetting(f);
    HeaderOfSetting(f);
    HeaderStays(f, h, "_table");
    HeaderStays(f, h, "_device_id");
    HeaderStays(f, h, "Result");
  }

  /** Every data item is in the map under its own tag, converted. */
  predicate HasFields(m: Parsed, items: seq<Item>) {
    forall i :: 0 <= i < |items| && !IsSkipped(items[i].tag) ==>
      items[i].tag in m && m[items[i].tag] == Convert(items[i].value)
  }

  lemma ParsedFields(f: Setting)
    requires Plain(f)
    ensures HasFields(ParsedSetting(f), SettingItems(f))
  {
    var m, items := ParsedSetting(f), SettingItems(f);
    forall i | 0 <= i < |items| && !IsSkipped(items[i].tag)
      ensures items[i].tag in m && m[items[i].tag] == Convert(items[i].value)
    {
      ParsedField(f, i);
    }
  }

  lemma FieldOf(m: Parsed, items: seq<Item>, i: nat, tag: string, value: string)
    requires HasFields(m, items) && i < |items| && items[i] == Item(tag, value) && !IsSkipped(tag)
    ensures tag in m && m[tag] == Convert(value)
  {
  }

  lemma NumberOf(m: Parsed, items: seq<Item>, i: nat, tag: string, n: int)
    requires HasFields(m, items) && i < |items| && items[i] == Item(tag, IntText(n)) && !IsSkipped(tag)
    ensures tag in m && m[tag] == IntField(n)
  {
    FieldOf(m, items, i, tag, IntText(n));
    IntTextReadsBack(n);
  }

  lemma NumberFields(f: Setting, m: Parsed)
    requires HasFields(m, SettingItems(f))
    ensures "ID" in m && m["ID"] == IntField(f.msgId)
    ensures "NewValue" in m && m["NewValue"] == IntField(f.value)
  {
    NumberOf(m, SettingItems(f), 0, "ID", f.msgId);
    NumberOf(m, SettingItems(f), 5, "NewValue", f.value);
  }

  lemma TextFields(f: Setting, m: Parsed)
    requires HasFields(m, SettingItems(f))
    ensures "Confirm" in m && m["Confirm"] == Convert(f.confirm)
    ensures "TblItem" in m && m["TblItem"] == Convert(f.key)
  {
    FieldOf(m, SettingItems(f), 6, "Confirm", f.confirm);
    FieldOf(m, SettingItems(f), 8, "TblItem", f.key);
  }

  /**
   A built Setting frame parses to its own table, device, key, value, confirm
   flag and message number, and is classed as transport.
   */
  lemma SettingRoundTrip(f: Setting)
    requires Plain(f)
    ensures var m := ParsedSetting(f);
            && "_table" in m && m["_table"] == TextField(f.table)
            && "_device_id" in m && m["_device_id"] == TextField(f.deviceId)
            && "ID" in m && m["ID"] == IntField(f.msgId)
            && "NewValue" in m && m["NewValue"] == IntField(f.value)
            && "Confirm" in m && m["Confirm"] == Convert(f.confirm)
            && "TblItem" in m && m["TblItem"] == Convert(f.key)
            && IsTransportFrame(m)
  {
    ParsedHeader(f);
    ParsedFields(f);
    NumberFields(f, ParsedSetting(f));
    TextFields(f, ParsedSetting(f));
  }

  lemma NumberOfSetting(f: Setting, i: nat, n: int)
    requires Plain(f) && i < |SettingItems(f)| && SettingItems(f)[i].value == IntText(n)
    ensures NumberIn(FrameText(SettingItems(f)), SettingItems(f)[i].tag) == Some(n)
  {
    SettingItemsGood(f);
    TagsDiffer(f);
    IntTextReadsBack(n);
    FrameIsNoTag(f, i);
    NumberInFrame(SettingItems(f), i);
  }

  lemma FrameIsNoTag(f: Setting, i: nat)
    requires i < |SettingItems(f)|
    ensures SettingItems(f)[i].tag != "Frame"
  {
  }

  /** The numbers that the server observes in the frame are the ones put into it. */
  lemma NumbersReadBack(f: Setting)
    requires Plain(f)
    ensures NumberIn(FrameText(SettingItems(f)), "ID_Set") == Some(f.idSet)
    ensures NumberIn(FrameText(SettingItems(f)), "ID") == Some(f.msgId)
  {
    NumberOfSetting(f, 2, f.idSet);
    NumberOfSetting(f, 0, f.msgId);
  }

  /** A text that int() or float() would take for a number. */
  predicate IsNumeric(text: string) {
    if '.' in text then IsFloatText(text) else ParseInt(text).Some?
  }

  /** Key and confirm come back as the texts they were exactly when they are not numeric. */
  lemma TextsSurviveUnlessNumeric(f: Setting)
    requires Plain(f)
    ensures var m := ParsedSetting(f);
            && "TblItem" in m && (m["TblItem"] == TextField(f.key) <==> !IsNumeric(f.key))
            && "Confirm" in m && (m["Confirm"] == TextField(f.confirm) <==> !IsNumeric(f.confirm))
  {
    SettingRoundTrip(f);
  }
}
