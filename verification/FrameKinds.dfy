/** How the parser and the server class any frame text made of tagged values. */
module FrameKinds {
  import opened Options
  import opened XmlFields
  import opened SettingFrame
  import TwinModel

  // ---- Numbers and texts ----

  lemma {:induction false} StripLeftKeeps(s: string, c: char)
    requires c in s && !IsSpace(c)
    ensures c in StripLeft(s)
  {
    if IsSpace(s[0]) {
      assert c in s[1..];
      StripLeftKeeps(s[1..], c);
    }
  }

  lemma {:induction false} StripRightKeeps(s: string, c: char)
    requires c in s && !IsSpace(c)
    ensures c in StripRight(s)
  {
    if IsSpace(s[|s| - 1]) {
      assert c in s[..|s| - 1];
      StripRightKeeps(s[..|s| - 1], c);
    }
  }

  /** A character that no number is written with. */
  predicate IsOdd(c: char) {
    !IsDigit(c) && !IsSpace(c) && c !in {'_', '+', '-', '.', 'e', 'E'}
  }

  lemma OddInPoint(s: string, c: char)
    requires c in s && IsOdd(c)
    ensures !IsPointNumber(s)
  {
    DotIsDot(s);
    match DotAt(s)
    case None => var k :| 0 <= k < |s| && s[k] == c;
    case Some(i) => if i < |s| { InParts(s, i, c); }
  }

  lemma {:induction false} DotIsDot(s: string)
    ensures DotAt(s).Some? ==> DotAt(s).value < |s| && s[DotAt(s).value] == '.'
  {
    if s != "" { DotIsDot(s[1..]); }
  }

  lemma {:induction false} ExponentIsE(s: string)
    ensures ExponentAt(s).Some? ==> ExponentAt(s).value < |s| && s[ExponentAt(s).value] in {'e', 'E'}
  {
    if s != "" { ExponentIsE(s[1..]); }
  }

  lemma InParts(s: string, i: nat, c: char)
    requires i < |s| && c in s && c != s[i]
    ensures c in s[..i] || c in s[i + 1..]
  {
    var k :| 0 <= k < |s| && s[k] == c;
    if k < i { assert s[..i][k] == c; } else { assert s[i + 1..][k - i - 1] == c; }
  }

  lemma SignKeeps(s: string, c: char)
    requires c in s && IsOdd(c)
    ensures c in StripSign(s)
  {
  }

  /** A value with such a character stays the text it is. */
  lemma OddIsText(value: string, c: char)
    requires c in value && IsOdd(c)
    ensures Convert(value) == TextField(value)
  {
    StripLeftKeeps(value, c);
    StripRightKeeps(StripLeft(value), c);
    var s := StripSign(StripRight(StripLeft(value)));
    SignKeeps(StripRight(StripLeft(value)), c);
    ExponentIsE(s);
    OddInPoint(s, c);
    match ExponentAt(s)
    case None =>
    case Some(i) =>
      InParts(s, i, c);
      if c in s[..i] { OddInPoint(s[..i], c); } else { SignKeeps(s[i + 1..], c); }
  }

  lemma {:induction false} NoExponent(s: string)
    requires forall i :: 0 <= i < |s| ==> s[i] != 'e' && s[i] != 'E'
    ensures ExponentAt(s).None?
  {
    if s != "" { NoExponent(s[1..]); }
  }

  lemma {:induction false} DotBetween(a: string, b: string)
    requires forall i :: 0 <= i < |a| ==> a[i] != '.'
    ensures DotAt(a + "." + b) == Some(|a|)
  {
    if a == "" {
      assert a + "." + b == "." + b;
    } else {
      assert (a + "." + b)[1..] == a[1..] + "." + b;
      DotBetween(a[1..], b);
    }
  }

  function Signed(negative: bool, digits: string): string {
    if negative then "-" + digits else digits
  }

  /** Digits around a point, with or without a minus, are a float. */
  lemma DecimalIsFloat(negative: bool, whole: nat, fraction: nat)
    ensures var text := Signed(negative, TwinModel.Digits(whole) + "." + TwinModel.Digits(fraction));
            Convert(text) == FloatField(text)
  {
    var a, b := TwinModel.Digits(whole), TwinModel.Digits(fraction);
    DigitsText(whole);
    DigitsText(fraction);
    DecimalText(negative, a, b);
  }

  lemma DecimalParts(a: string, b: string)
    requires AllDigits(a) && AllDigits(b)
    ensures var body := a + "." + b;
            && body[0] == a[0] && body[|body| - 1] == b[|b| - 1] && body[|a|] == '.'
            && body[..|a|] == a && body[|a| + 1..] == b
            && forall i :: 0 <= i < |body| ==> IsDigit(body[i]) || body[i] == '.'
  {
  }

  lemma SignedParts(negative: bool, body: string)
    requires body != "" && IsDigit(body[0]) && IsDigit(body[|body| - 1])
    ensures StripSign(StripRight(StripLeft(Signed(negative, body)))) == body
    ensures forall c :: c in body ==> c in Signed(negative, body)
  {
    var text := Signed(negative, body);
    NoSpaces(text);
    if negative { assert text[1..] == body; }
  }

  lemma DecimalText(negative: bool, a: string, b: string)
    requires AllDigits(a) && AllDigits(b) && IsDigitPart(a) && IsDigitPart(b)
    ensures Convert(Signed(negative, a + "." + b)) == FloatField(Signed(negative, a + "." + b))
  {
    var body := a + "." + b;
    DecimalParts(a, b);
    SignedParts(negative, body);
    NoExponent(body);
    DotBetween(a, b);
    assert body[|a|] in body;
  }

  predicate Blank(s: string) {
    forall i :: 0 <= i < |s| ==> IsSpace(s[i])
  }

  lemma {:induction false} StripLeftBlank(left: string, s: string)
    requires Blank(left) && (s == "" || !IsSpace(s[0]))
    ensures StripLeft(left + s) == s
  {
    if left == "" {
      assert left + s == s;
    } else {
      assert (left + s)[0] == left[0] && (left + s)[1..] == left[1..] + s;
      StripLeftBlank(left[1..], s);
    }
  }

  lemma {:induction false} StripRightBlank(s: string, right: string)
    requires Blank(right) && (s == "" || !IsSpace(s[|s| - 1]))
    ensures StripRight(s + right) == s
  {
    if right == "" {
      assert s + right == s;
    } else {
      var n := |right| - 1;
      assert (s + right)[|s| + n] == right[n] && (s + right)[..|s| + n] == s + right[..n];
      StripRightBlank(s, right[..n]);
    }
  }

  /** White space around a number does not matter, nor does a plus in front of it. */
  lemma SpacesDoNotMatter(left: string, n: int, right: string)
    requires Blank(left) && Blank(right)
    ensures ParseInt(left + IntText(n) + right) == Some(n)
    ensures n >= 0 ==> ParseInt(left + ("+" + IntText(n)) + right) == Some(n)
  {
    var k: nat := if n < 0 then -n else n;
    DigitsText(k);
    IntTextReadsBack(n);
    SpacedInt(left, IntText(n), right);
    if n >= 0 {
      assert ("+" + IntText(n))[1..] == IntText(n);
      SpacedInt(left, "+" + IntText(n), right);
      NoSpaces("+" + IntText(n));
    }
  }

  lemma SpacedInt(left: string, s: string, right: string)
    requires Blank(left) && Blank(right) && s != "" && !IsSpace(s[0]) && !IsSpace(s[|s| - 1])
    ensures ParseInt(left + s + right) == ParseInt(s)
  {
    assert left + s + right == left + (s + right);
    assert (s + right)[0] == s[0];
    StripLeftBlank(left, s + right);
    StripRightBlank(s, right);
    NoSpaces(s);
  }

  // ---- Fields of any frame ----

  /** The value of the last item of a tag. */
  function LastValue(items: seq<Item>, tag: string): Option<string> {
    if items == [] then None
    else if items[|items| - 1].tag == tag then Some(items[|items| - 1].value)
    else LastValue(items[..|items| - 1], tag)
  }

  predicate HasTag(items: seq<Item>, tag: string) {
    exists i :: 0 <= i < |items| && items[i].tag == tag
  }

  lemma {:induction false} FieldsOf(m: Parsed, items: seq<Item>, key: string)
    requires !IsSkipped(key)
    ensures LastValue(items, key).Some? <==> HasTag(items, key)
    ensures key in AddFields(m, items) <==> key in m || HasTag(items, key)
    ensures HasTag(items, key) ==> AddFields(m, items)[key] == Convert(LastValue(items, key).value)
    ensures !HasTag(items, key) && key in m ==> AddFields(m, items)[key] == m[key]
  {
    if items != [] {
      var before, last := items[..|items| - 1], items[|items| - 1];
      FieldsOf(m, before, key);
      assert HasTag(items, key) <==> HasTag(before, key) || last.tag == key by {
        if HasTag(before, key) {
          var i :| 0 <= i < |before| && before[i].tag == key;
          assert items[i].tag == key;
        }
        if last.tag == key { assert items[|items| - 1].tag == key; }
      }
    }
  }

  lemma {:induction false} SkippedFields(m: Parsed, items: seq<Item>, key: string)
    requires IsSkipped(key)
    ensures key in AddFields(m, items) <==> key in m
  {
    if items != [] { SkippedFields(m, items[..|items| - 1], key); }
  }

  lemma BankIs(items: seq<Item>, i: nat, bank: nat)
    requires GoodItems(items) && i < |items| && items[i] == Item("ID_SubD", IntText(bank))
    requires forall j :: 0 <= j < i ==> items[j].tag != "ID_SubD"
    ensures IsInactiveBank(FrameText(items)) <==> bank > 0
  {
    ScanFrame(items, items[i].tag, true);
    IntTextReadsBack(bank);
    DigitsText(bank);
    FirstValueAt(items, i, true);
  }

  lemma ActiveParse(data: string, items: seq<Item>)
    requires FindAll(data) == items && !IsInactiveBank(data)
    ensures ParseXml(data) == AddFields(Header(data), items)
  {
  }

  /** Each data field is in the map with its last value, converted. */
  predicate HasLastValues(m: Parsed, items: seq<Item>) {
    forall i :: 0 <= i < |items| && !IsSkipped(items[i].tag) ==>
      && items[i].tag in m && LastValue(items, items[i].tag).Some?
      && m[items[i].tag] == Convert(LastValue(items, items[i].tag).value)
  }

  lemma LastValuesOf(m: Parsed, items: seq<Item>)
    ensures HasLastValues(AddFields(m, items), items)
  {
    forall i | 0 <= i < |items| && !IsSkipped(items[i].tag)
      ensures var r := AddFields(m, items);
              && items[i].tag in r && LastValue(items, items[i].tag).Some?
              && r[items[i].tag] == Convert(LastValue(items, items[i].tag).value)
    {
      FieldsOf(m, items, items[i].tag);
    }
  }

  /** A frame of a battery bank other than 0 is ignored; of bank 0 each data field is read. */
  lemma BankIsIgnoredIff(items: seq<Item>, i: nat, bank: nat)
    requires GoodItems(items) && i < |items| && items[i] == Item("ID_SubD", IntText(bank))
    requires forall j :: 0 <= j < i ==> items[j].tag != "ID_SubD"
    ensures bank > 0 ==> ParseXml(FrameText(items)) == map[]
    ensures bank == 0 ==> HasLastValues(ParseXml(FrameText(items)), items)
  {
    BankIs(items, i, bank);
    if bank == 0 {
      ScanFrame(items, "", false);
      ActiveParse(FrameText(items), items);
      LastValuesOf(Header(FrameText(items)), items);
    }
  }

  // ---- Transport frames ----

  lemma ResultTexts(value: string)
    ensures value in {"ACK", "END", "IsNewSet", "IsNewWeather", "IsNewFW"} ==> Convert(value) == TextField(value)
    ensures Convert(value).TextField? ==> Convert(value).text == value
  {
    if value == "ACK" { OddIsText(value, 'A'); }
    if value == "END" { OddIsText(value, 'N'); }
    if value in {"IsNewSet", "IsNewWeather", "IsNewFW"} { OddIsText(value, 'I'); }
  }

  lemma HeaderKeys(data: string, key: string)
    ensures key in Header(data) ==> key != "" && key[0] == '_'
  {
  }

  /** A tag whose value sensors are told about. */
  predicate IsData(tag: string) {
    !IsSkipped(tag) && IsPublishable(tag)
  }

  lemma PublishableKeys(items: seq<Item>, h: Parsed)
    requires forall key :: key in h ==> key != "" && key[0] == '_'
    ensures (forall key :: key in AddFields(h, items) ==> !IsPublishable(key))
       <==> (forall i :: 0 <= i < |items| ==> !IsData(items[i].tag))
  {
    var m := AddFields(h, items);
    if i :| 0 <= i < |items| && IsData(items[i].tag) {
      FieldsOf(h, items, items[i].tag);
      assert items[i].tag in m;
    }
    forall key | key in m && IsPublishable(key)
      ensures exists i :: 0 <= i < |items| && IsData(items[i].tag)
    {
      if IsSkipped(key) { SkippedFields(h, items, key); } else { FieldsOf(h, items, key); }
      var i :| 0 <= i < |items| && items[i].tag == key;
      assert IsData(items[i].tag);
    }
  }

  /** A key without a leading underscore is in the parsed map exactly when a data item has that tag. */
  lemma PlainKey(items: seq<Item>, h: Parsed, key: string)
    requires forall k :: k in h ==> k != "" && k[0] == '_'
    requires key != "" && key[0] != '_' && !IsSkipped(key)
    ensures key in AddFields(h, items) <==> HasTag(items, key)
    ensures HasTag(items, key) ==>
              LastValue(items, key).Some? && AddFields(h, items)[key] == Convert(LastValue(items, key).value)
    ensures LastValue(items, key).Some? ==> HasTag(items, key)
  {
    FieldsOf(h, items, key);
  }

  lemma ResultIs(items: seq<Item>, h: Parsed, results: set<string>)
    requires forall key :: key in h ==> key != "" && key[0] == '_'
    requires results <= {"ACK", "END", "IsNewSet", "IsNewWeather", "IsNewFW"}
    ensures HasResult(AddFields(h, items), results)
       <==> LastValue(items, "Result").Some? && LastValue(items, "Result").value in results
  {
    PlainKey(items, h, "Result");
    if LastValue(items, "Result").Some? { ResultTexts(LastValue(items, "Result").value); }
  }

  /** The fields that make a frame without a known Result a Setting frame. */
  predicate LooksLikeSetting(items: seq<Item>) {
    && HasTag(items, "TblItem") && HasTag(items, "NewValue")
    && (HasTag(items, "Confirm") || HasTag(items, "ID") || HasTag(items, "ID_Server")
        || HasTag(items, "TSec") || HasTag(items, "mytimediff"))
  }

  lemma SettingKeys(items: seq<Item>, h: Parsed)
    requires forall key :: key in h ==> key != "" && key[0] == '_'
    ensures var m := AddFields(h, items);
            LooksLikeSetting(items) <==>
              "TblItem" in m && "NewValue" in m
              && ("Confirm" in m || "ID" in m || "ID_Server" in m || "TSec" in m || "mytimediff" in m)
  {
    PlainKey(items, h, "TblItem");
    PlainKey(items, h, "NewValue");
    PlainKey(items, h, "Confirm");
    PlainKey(items, h, "ID");
    PlainKey(items, h, "ID_Server");
    PlainKey(items, h, "TSec");
    PlainKey(items, h, "mytimediff");
  }

  /** Of a frame: ACK and END are transport, a poll without data items is, and what looks like a Setting frame. */
  predicate IsTransport(items: seq<Item>) {
    var result := LastValue(items, "Result");
    if result == Some("ACK") || result == Some("END") then true
    else if result == Some("IsNewSet") || result == Some("IsNewWeather") || result == Some("IsNewFW") then
      forall i :: 0 <= i < |items| ==> !IsData(items[i].tag)
    else LooksLikeSetting(items)
  }

  lemma TransportOf(items: seq<Item>, h: Parsed)
    requires forall key :: key in h ==> key != "" && key[0] == '_'
    ensures IsTransportFrame(AddFields(h, items)) <==> IsTransport(items)
  {
    ResultIs(items, h, {"ACK", "END"});
    ResultIs(items, h, {"IsNewSet", "IsNewWeather", "IsNewFW"});
    PublishableKeys(items, h);
    SettingKeys(items, h);
  }

  /** A parsed frame text of tagged values is classed by its last Result and its tags. */
  lemma TransportIff(items: seq<Item>)
    requires GoodItems(items) && items != [] && !IsInactiveBank(FrameText(items))
    ensures IsTransportFrame(ParseXml(FrameText(items))) <==> IsTransport(items)
  {
    var h := Header(FrameText(items));
    ScanFrame(items, "", false);
    forall key | key in h ensures key != "" && key[0] == '_' {
      HeaderKeys(FrameText(items), key);
    }
    ActiveParse(FrameText(items), items);
    TransportOf(items, h);
  }
}
