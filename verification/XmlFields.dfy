/**
 The flat XML of frame texts: rendering tagged values, the scans that read them
 back, and the conversion of a value to a number. Word characters, digits and
 white space are those of ASCII.
 */
module XmlFields {
  import opened Options

  datatype Item = Item(tag: string, value: string)

  function Closing(tag: string): string {
    "</" + (tag + ">")
  }

  function Tagged(it: Item): (s: string)
    ensures |s| == 5 + 2 * |it.tag| + |it.value|
  {
    "<" + (it.tag + (">" + (it.value + Closing(it.tag))))
  }

  function Render(items: seq<Item>): string {
    if items == [] then "" else Tagged(items[0]) + Render(items[1..])
  }

  predicate IsDigit(c: char) {
    '0' <= c <= '9'
  }

  predicate IsWord(c: char) {
    IsDigit(c) || 'a' <= c <= 'z' || 'A' <= c <= 'Z' || c == '_'
  }

  predicate IsTag(s: string) {
    s != "" && forall i :: 0 <= i < |s| ==> IsWord(s[i])
  }

  predicate NoLt(s: string) {
    forall i :: 0 <= i < |s| ==> s[i] != '<'
  }

  predicate AllDigits(s: string) {
    s != "" && forall i :: 0 <= i < |s| ==> IsDigit(s[i])
  }

  predicate GoodItem(it: Item) {
    IsTag(it.tag) && NoLt(it.value)
  }

  predicate GoodItems(items: seq<Item>) {
    forall i :: 0 <= i < |items| ==> GoodItem(items[i])
  }

  // ---- Scanning ----

  function WordRun(s: string): (n: nat)
    ensures n <= |s| && forall i :: 0 <= i < n ==> IsWord(s[i])
    ensures n < |s| ==> !IsWord(s[n])
  {
    if s == "" || !IsWord(s[0]) then 0 else 1 + WordRun(s[1..])
  }

  function TextRun(s: string): (n: nat)
    ensures n <= |s| && NoLt(s[..n])
    ensures n < |s| ==> s[n] == '<'
  {
    if s == "" || s[0] == '<' then 0 else 1 + TextRun(s[1..])
  }

  predicate StartsWith(s: string, p: string) {
    |p| <= |s| && s[..|p|] == p
  }

  /**
   The tagged value at the front: a '<', a longest word, a '>', a longest text
   without '<', and the closing tag of that word. A shorter word or text could
   not be followed by what the pattern wants next.
   */
  function MatchAt(s: string): (r: Option<Item>)
    ensures r.Some? ==> |Tagged(r.value)| <= |s|
  {
    if s == "" || s[0] != '<' then None
    else
      var w := WordRun(s[1..]);
      if w == 0 || 1 + w >= |s| || s[1 + w] != '>' then None
      else
        var tag := s[1..1 + w];
        var body := s[2 + w..];
        var v := TextRun(body);
        if StartsWith(body[v..], Closing(tag)) then Some(Item(tag, body[..v])) else None
  }

  /** All tagged values, left to right, none inside another. */
  function FindAll(s: string): seq<Item>
    decreases |s|
  {
    if s == "" then []
    else
      match MatchAt(s)
      case Some(it) => [it] + FindAll(s[|Tagged(it)|..])
      case None => FindAll(s[1..])
  }

  /** The first value of the tag that is not empty, and is all digits if digits are wanted. */
  function Search(s: string, tag: string, digits: bool): Option<string>
    decreases |s|
  {
    if s == "" then None
    else
      match MatchAt(s)
      case Some(it) =>
        if it.tag == tag && it.value != "" && (digits ==> AllDigits(it.value)) then Some(it.value)
        else Search(s[1..], tag, digits)
      case None => Search(s[1..], tag, digits)
  }

  /** The text after the first occurrence of a marker. */
  function AfterMark(s: string, mark: string): Option<string> {
    if StartsWith(s, mark) then Some(s[|mark|..])
    else if s == "" then None
    else AfterMark(s[1..], mark)
  }

  /** The text before the first occurrence of a marker. */
  function BeforeMark(s: string, mark: string): Option<string> {
    if StartsWith(s, mark) then Some("")
    else if s == "" then None
    else
      match BeforeMark(s[1..], mark)
      case None => None
      case Some(t) => Some([s[0]] + t)
  }

  // ---- Scanning undoes rendering ----

  lemma {:induction false} WordRunOf(w: string, rest: string)
    requires (w == "" || IsTag(w)) && rest != "" && !IsWord(rest[0])
    ensures WordRun(w + rest) == |w|
  {
    if w == "" {
      assert w + rest == rest;
    } else {
      assert (w + rest)[1..] == w[1..] + rest;
      WordRunOf(w[1..], rest);
    }
  }

  lemma {:induction false} TextRunOf(v: string, rest: string)
    requires NoLt(v) && rest != "" && rest[0] == '<'
    ensures TextRun(v + rest) == |v|
  {
    if v == "" {
      assert v + rest == rest;
    } else {
      assert (v + rest)[1..] == v[1..] + rest;
      TextRunOf(v[1..], rest);
    }
  }

  lemma Assoc(a: string, b: string, c: string)
    ensures (a + b) + c == a + (b + c)
  {
  }

  lemma StartsAt(s: string, p: string, i: nat)
    requires StartsWith(s, p) && i < |p|
    ensures s[i] == p[i]
  {
    assert s[i] == s[..|p|][i];
  }

  /** A tagged value and what follows, part by part. */
  lemma TaggedThen(it: Item, rest: string)
    ensures Tagged(it) + rest == "<" + (it.tag + (">" + (it.value + (Closing(it.tag) + rest))))
  {
    var t4 := Closing(it.tag);
    var t3 := it.value + t4;
    var t2 := ">" + t3;
    var t1 := it.tag + t2;
    Assoc("<", t1, rest);
    Assoc(it.tag, t2, rest);
    Assoc(">", t3, rest);
    Assoc(it.value, t4, rest);
  }

  /** What the scan sees at an opening tag: the tag, and the text behind it. */
  lemma OpenParts(tag: string, body: string)
    requires IsTag(tag)
    ensures var s := "<" + (tag + (">" + body));
            && WordRun(s[1..]) == |tag| && s[1..1 + |tag|] == tag
            && s[1 + |tag|] == '>' && s[2 + |tag|..] == body
  {
    var s := "<" + (tag + (">" + body));
    assert s[1..] == tag + (">" + body);
    WordRunOf(tag, ">" + body);
  }

  lemma BodyParts(value: string, close: string, rest: string)
    requires NoLt(value) && close != "" && close[0] == '<'
    ensures var body := value + (close + rest);
            TextRun(body) == |value| && body[..|value|] == value && StartsWith(body[|value|..], close)
  {
    var body := value + (close + rest);
    TextRunOf(value, close + rest);
    assert body[|value|..] == close + rest;
    assert (close + rest)[..|close|] == close;
  }

  lemma MatchTagged(it: Item, rest: string)
    requires IsTag(it.tag) && NoLt(it.value)
    ensures MatchAt(Tagged(it) + rest) == Some(it)
  {
    var body := it.value + (Closing(it.tag) + rest);
    TaggedThen(it, rest);
    OpenParts(it.tag, body);
    BodyParts(it.value, Closing(it.tag), rest);
  }

  /** An opening tag that is not closed right after its text opens nothing. */
  lemma MatchUnclosed(tag: string, rest: string)
    requires IsTag(tag) && |rest| >= 2 && rest[0] == '<' && rest[1] != '/'
    ensures MatchAt("<" + (tag + (">" + rest))) == None
  {
    OpenParts(tag, rest);
    assert TextRun(rest) == 0 && rest[0..] == rest;
    if StartsWith(rest, Closing(tag)) { StartsAt(rest, Closing(tag), 1); }
  }

  lemma MatchClosing(s: string)
    requires |s| >= 2 && s[0] == '<' && s[1] == '/'
    ensures MatchAt(s) == None
  {
  }

  lemma {:induction false} SkipPlain(p: string, s: string, tag: string, digits: bool, mark: string)
    requires NoLt(p) && mark != "" && mark[0] == '<'
    ensures FindAll(p + s) == FindAll(s)
    ensures Search(p + s, tag, digits) == Search(s, tag, digits)
    ensures AfterMark(p + s, mark) == AfterMark(s, mark)
    decreases |p|
  {
    if p == "" {
      assert p + s == s;
    } else {
      assert (p + s)[1..] == p[1..] + s;
      assert (p + s)[0] == p[0];
      if StartsWith(p + s, mark) { StartsAt(p + s, mark, 0); }
      SkipPlain(p[1..], s, tag, digits, mark);
    }
  }

  lemma RenderCons(items: seq<Item>, rest: string)
    requires items != []
    ensures Render(items) + rest == Tagged(items[0]) + (Render(items[1..]) + rest)
    ensures (Render(items) + rest)[|Tagged(items[0])|..] == Render(items[1..]) + rest
  {
    Assoc(Tagged(items[0]), Render(items[1..]), rest);
  }

  lemma FindAllCons(it: Item, after: string)
    requires IsTag(it.tag) && NoLt(it.value)
    ensures FindAll(Tagged(it) + after) == [it] + FindAll(after)
  {
    MatchTagged(it, after);
    assert (Tagged(it) + after)[|Tagged(it)|..] == after;
  }

  lemma {:induction false} FindAllRendered(items: seq<Item>, rest: string)
    requires GoodItems(items)
    ensures FindAll(Render(items) + rest) == items + FindAll(rest)
    decreases |items|
  {
    if items == [] {
      assert Render(items) + rest == rest;
      assert items + FindAll(rest) == FindAll(rest);
    } else {
      var after := Render(items[1..]) + rest;
      RenderCons(items, rest);
      FindAllRendered(items[1..], rest);
      PutFirst(items, FindAll(rest));
      FindAllCons(items[0], after);
    }
  }

  lemma PutFirst(items: seq<Item>, more: seq<Item>)
    requires items != []
    ensures [items[0]] + (items[1..] + more) == items + more
  {
  }

  // ---- Searching one tag in a rendered text ----

  /** The value of the first item of a tag that the search accepts. */
  function FirstValue(items: seq<Item>, tag: string, digits: bool): Option<string> {
    if items == [] then None
    else if items[0].tag == tag && items[0].value != "" && (digits ==> AllDigits(items[0].value)) then Some(items[0].value)
    else FirstValue(items[1..], tag, digits)
  }

  /** Behind its opening '<' a tagged value holds nothing a search could find. */
  lemma InsideTagged(it: Item, rest: string, tag: string, digits: bool, mark: string)
    requires IsTag(it.tag) && NoLt(it.value) && |mark| >= 2 && mark[0] == '<' && mark[1] != '/'
    ensures Search((Tagged(it) + rest)[1..], tag, digits) == Search(rest, tag, digits)
    ensures AfterMark((Tagged(it) + rest)[1..], mark) == AfterMark(rest, mark)
  {
    var open, close := it.tag + (">" + it.value), it.tag + ">";
    TaggedThen(it, rest);
    Assoc(">", it.value, Closing(it.tag) + rest);
    Assoc(it.tag, ">" + it.value, Closing(it.tag) + rest);
    assert (Tagged(it) + rest)[1..] == open + (Closing(it.tag) + rest);
    SkipPlain(open, Closing(it.tag) + rest, tag, digits, mark);
    var s := Closing(it.tag) + rest;
    MatchClosing(s);
    if StartsWith(s, mark) { StartsAt(s, mark, 1); }
    assert s[1..] == ("/" + close) + rest;
    SkipPlain("/" + close, rest, tag, digits, mark);
  }

  lemma {:induction false} SearchRendered(items: seq<Item>, rest: string, tag: string, digits: bool)
    requires GoodItems(items)
    ensures Search(Render(items) + rest, tag, digits)
         == if FirstValue(items, tag, digits).Some? then FirstValue(items, tag, digits) else Search(rest, tag, digits)
    decreases |items|
  {
    if items == [] {
      assert Render(items) + rest == rest;
    } else {
      RenderCons(items, rest);
      MatchTagged(items[0], Render(items[1..]) + rest);
      InsideTagged(items[0], Render(items[1..]) + rest, tag, digits, "<>");
      SearchRendered(items[1..], rest, tag, digits);
    }
  }

  function Opening(tag: string): string {
    "<" + (tag + ">")
  }

  /** Only the opening tag of the same word starts with the mark. */
  lemma OpeningIsOwn(tag: string, name: string, body: string)
    requires IsTag(tag) && IsTag(name)
    ensures StartsWith("<" + (tag + (">" + body)), Opening(name)) <==> tag == name
  {
    var s := "<" + (tag + (">" + body));
    if tag == name {
      Assoc(tag, ">", body);
      Assoc("<", tag + ">", body);
      assert s[..|Opening(name)|] == Opening(name);
    }
    if StartsWith(s, Opening(name)) {
      var left := s[|Opening(name)|..];
      assert s == Opening(name) + left;
      Assoc("<", name + ">", left);
      Assoc(name, ">", left);
      OpenParts(name, left);
      OpenParts(tag, body);
    }
  }

  lemma AfterOwnMark(it: Item, after: string)
    requires GoodItem(it)
    ensures AfterMark(Tagged(it) + after, Opening(it.tag)) == Some(it.value + (Closing(it.tag) + after))
  {
    TaggedThen(it, after);
    OpeningIsOwn(it.tag, it.tag, it.value + (Closing(it.tag) + after));
    assert (Tagged(it) + after)[|Opening(it.tag)|..] == it.value + (Closing(it.tag) + after);
  }

  lemma AfterOtherMark(it: Item, name: string, after: string)
    requires GoodItem(it) && IsTag(name) && it.tag != name
    ensures AfterMark(Tagged(it) + after, Opening(name)) == AfterMark(after, Opening(name))
  {
    TaggedThen(it, after);
    OpeningIsOwn(it.tag, name, it.value + (Closing(it.tag) + after));
    assert Opening(name)[1] == name[0];
    InsideTagged(it, after, "", false, Opening(name));
  }

  /** The text behind the first opening tag of a name is that item's value, its closing tag and the rest. */
  lemma {:induction false} AfterMarkRendered(items: seq<Item>, rest: string, i: nat)
    requires GoodItems(items) && i < |items| && forall j :: 0 <= j < i ==> items[j].tag != items[i].tag
    ensures AfterMark(Render(items) + rest, Opening(items[i].tag))
         == Some(items[i].value + (Closing(items[i].tag) + (Render(items[i + 1..]) + rest)))
    decreases i
  {
    var after := Render(items[1..]) + rest;
    RenderCons(items, rest);
    if i == 0 {
      AfterOwnMark(items[0], after);
    } else {
      assert items[0].tag != items[i].tag;
      AfterOtherMark(items[0], items[i].tag, after);
      AfterMarkRendered(items[1..], rest, i - 1);
      assert items[1..][i..] == items[i + 1..];
    }
  }

  lemma {:induction false} BeforeMarkOf(value: string, mark: string, rest: string)
    requires NoLt(value) && mark != "" && mark[0] == '<'
    ensures BeforeMark(value + (mark + rest), mark) == Some(value)
  {
    var s := value + (mark + rest);
    if value == "" {
      assert s == mark + rest && s[..|mark|] == mark;
    } else {
      if StartsWith(s, mark) { StartsAt(s, mark, 0); }
      assert s[1..] == value[1..] + (mark + rest);
      BeforeMarkOf(value[1..], mark, rest);
      assert [s[0]] + value[1..] == value;
    }
  }
}
