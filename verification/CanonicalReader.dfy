/** A reader for canonical text; the inverse that shows the text names exactly one tree. */
module CanonicalReader {
  import opened Prelude
  import opened Decimal
  import opened TextOrder
  import opened Json
  import opened Canonical

  /** The value of a lower-case hexadecimal digit. */
  function HexValue(c: char): (r: Option<int>)
    ensures r.Some? ==> 0 <= r.value < 16
  {
    if '0' <= c <= '9' then Some(c as int - '0' as int)
    else if 'a' <= c <= 'f' then Some(c as int - 'a' as int + 10)
    else None
  }

  /** One possibly escaped character and what follows it. */
  function ReadChar(s: string): (r: Option<(char, string)>)
    requires s != [] && s[0] != '"'
    ensures r.Some? ==> |r.value.1| < |s|
  {
    if s[0] != '\\' then Some((s[0], s[1..]))
    else if |s| < 2 then None
    else if s[1] == '"' || s[1] == '\\' then Some((s[1], s[2..]))
    else if s[1] == 'n' then Some(('\n', s[2..]))
    else if s[1] == 'r' then Some(('\r', s[2..]))
    else if s[1] == 't' then Some(('\t', s[2..]))
    else if s[1] == 'b' then Some((8 as char, s[2..]))
    else if s[1] == 'f' then Some((12 as char, s[2..]))
    else if s[1] == 'u' && |s| >= 6 && s[2] == '0' && s[3] == '0' then
      match (HexValue(s[4]), HexValue(s[5]))
      case (Some(hi), Some(lo)) => Some(((hi * 16 + lo) as char, s[6..]))
      case _ => None
    else None
  }

  /** A string body up to its closing quote. */
  function ReadText(s: string): (r: Option<(string, string)>)
    ensures r.Some? ==> |r.value.1| < |s|
    decreases |s|
  {
    if s == [] then None
    else if s[0] == '"' then Some(("", s[1..]))
    else
      match ReadChar(s)
      case None => None
      case Some((c, rest)) =>
        match ReadText(rest)
        case None => None
        case Some((text, after)) => Some(([c] + text, after))
  }

  /** The longest prefix of number characters. */
  function NumberSpan(s: string): (n: nat)
    ensures n <= |s|
    ensures forall i :: 0 <= i < n ==> NumberChar(s[i])
    ensures n < |s| ==> !NumberChar(s[n])
  {
    if s == [] || !NumberChar(s[0]) then 0 else 1 + NumberSpan(s[1..])
  }

  function ReadNumber(s: string): (r: Option<(Json, string)>)
    ensures r.Some? ==> |r.value.1| < |s|
  {
    var n := NumberSpan(s);
    if n == 0 then None
    else
      var token := s[..n];
      if '.' in token || 'e' in token then Some((JFloat(token), s[n..]))
      else
        match ReadInt(token)
        case None => None
        case Some(i) => Some((JInt(i), s[n..]))
  }

  function ReadValue(s: string): (r: Option<(Json, string)>)
    ensures r.Some? ==> |r.value.1| < |s|
    decreases |s|, 0
  {
    if s == [] then None
    else if s[0] == 'n' then if "null" <= s then Some((JNull, s[4..])) else None
    else if s[0] == 't' then if "true" <= s then Some((JBool(true), s[4..])) else None
    else if s[0] == 'f' then if "false" <= s then Some((JBool(false), s[5..])) else None
    else if s[0] == '"' then
      match ReadText(s[1..])
      case None => None
      case Some((text, rest)) => Some((JStr(text), rest))
    else if s[0] == '[' then
      if |s| > 1 && s[1] == ']' then Some((JArr([]), s[2..]))
      else
        match ReadItems(s[1..])
        case None => None
        case Some((items, rest)) => Some((JArr(items), rest))
    else if s[0] == '{' then
      if |s| > 1 && s[1] == '}' then Some((JObj(map[]), s[2..]))
      else
        match ReadMembers(s[1..])
        case None => None
        case Some((fields, rest)) => Some((JObj(fields), rest))
    else ReadNumber(s)
  }

  /** One or more items and the closing bracket. */
  function ReadItems(s: string): (r: Option<(seq<Json>, string)>)
    ensures r.Some? ==> |r.value.1| < |s|
    decreases |s|, 1
  {
    match ReadValue(s)
    case None => None
    case Some((item, rest)) =>
      if rest == [] then None
      else if rest[0] == ']' then Some(([item], rest[1..]))
      else if rest[0] == ',' then
        match ReadItems(rest[1..])
        case None => None
        case Some((items, after)) => Some(([item] + items, after))
      else None
  }

  /** One or more members and the closing brace; a later member of the same name wins. */
  function ReadMembers(s: string): (r: Option<(map<string, Json>, string)>)
    ensures r.Some? ==> |r.value.1| < |s|
    decreases |s|, 1
  {
    if s == [] || s[0] != '"' then None
    else
      match ReadText(s[1..])
      case None => None
      case Some((name, afterName)) =>
        if afterName == [] || afterName[0] != ':' then None
        else
          match ReadValue(afterName[1..])
          case None => None
          case Some((value, rest)) =>
            if rest == [] then None
            else if rest[0] == '}' then Some((map[name := value], rest[1..]))
            else if rest[0] == ',' then
              match ReadMembers(rest[1..])
              case None => None
              case Some((fields, after)) => Some((map[name := value] + fields, after))
            else None
  }

  /** The tree a whole text denotes, or None. */
  function ReadJson(s: string): Option<Json> {
    match ReadValue(s)
    case Some((j, rest)) => if rest == [] then Some(j) else None
    case None => None
  }

  // ------------------------------------------------ reading what was written

  lemma ReadEscapedChar(c: char, rest: string)
    ensures EscapeChar(c)[0] != '"'
    ensures ReadChar(EscapeChar(c) + rest) == Some((c, rest))
  {
    var s := EscapeChar(c) + rest;
    if c == '"' || c == '\\' || c == '\n' || c == '\r' || c == '\t' || c as int == 8 || c as int == 12 {
      assert s[2..] == rest;
    } else if c as int < 32 {
      assert s[6..] == rest;
      var hi, lo := c as int / 16, c as int % 16;
      assert hi == 0 || hi == 1;
      assert s[4] == HexChar(hi) && s[5] == HexChar(lo);
      assert HexValue(HexChar(hi)) == Some(hi);
      HexOfChar(lo);
      assert (hi * 16 + lo) as char == c;
    } else {
      assert s[1..] == rest;
    }
  }

  lemma HexOfChar(d: nat)
    requires d < 16
    ensures HexValue(HexChar(d)) == Some(d)
  {
    if d < 8 {
      if d < 4 {} else {}
    } else if d < 10 {
    } else {
    }
  }

  lemma {:induction false} ReadEscapedText(text: string, rest: string)
    ensures ReadText(Escape(text) + "\"" + rest) == Some((text, rest))
    decreases text
  {
    var s := Escape(text) + "\"" + rest;
    if text == [] {
      assert s[1..] == rest;
    } else {
      var tail := Escape(text[1..]) + "\"" + rest;
      assert s == EscapeChar(text[0]) + tail;
      ReadEscapedChar(text[0], tail);
      ReadEscapedText(text[1..], rest);
      assert text == [text[0]] + text[1..];
    }
  }

  /** What may follow a value: nothing that could prolong a number. */
  predicate Stops(rest: string) {
    rest == [] || !NumberChar(rest[0])
  }

  lemma {:induction false} SpanOfToken(token: string, rest: string)
    requires forall i :: 0 <= i < |token| ==> NumberChar(token[i])
    requires Stops(rest)
    ensures NumberSpan(token + rest) == |token|
    decreases token
  {
    if token == [] {
      assert token + rest == rest;
    } else {
      assert (token + rest)[1..] == token[1..] + rest;
      SpanOfToken(token[1..], rest);
    }
  }

  lemma IntTextShape(i: int)
    ensures forall k :: 0 <= k < |IntText(i)| ==> NumberChar(IntText(i)[k])
    ensures '.' !in IntText(i) && 'e' !in IntText(i)
  {
    var d := Digits(if i < 0 then -i else i);
    assert forall k :: 0 <= k < |d| ==> IsDigit(d[k]);
  }

  lemma ReadNumberToken(j: Json, token: string, rest: string)
    requires Stops(rest)
    requires || (j.JFloat? && FloatToken(token) && j.token == token)
             || (j.JInt? && token == IntText(j.i))
    ensures ReadValue(token + rest) == Some((j, rest))
  {
    var s := token + rest;
    if j.JInt? {
      IntTextShape(j.i);
      ReadIntOfText(j.i);
      assert NumberChar(token[0]);
    }
    SpanOfToken(token, rest);
    assert s[..|token|] == token && s[|token|..] == rest;
    assert s[0] == token[0];
  }

  lemma ReadLiteral(j: Json, rest: string)
    requires j.JNull? || j.JBool?
    ensures ReadValue(TreeText(j) + rest) == Some((j, rest))
  {
    hide ReadItems, ReadMembers, ReadNumber;
    var s := TreeText(j) + rest;
    if j == JBool(false) {
      assert s[5..] == rest && s[..5] == "false";
    } else {
      assert s[4..] == rest && s[..4] == TreeText(j);
    }
  }

  lemma {:induction false} ReadTreeText(j: Json, rest: string)
    requires TreeOk(j) && Stops(rest)
    ensures ReadValue(TreeText(j) + rest) == Some((j, rest))
    ensures TreeText(j) != []
    ensures TreeText(j)[0] != ']' && TreeText(j)[0] != '}'
    decreases j, 1
  {
    hide ReadItems, ReadMembers, ItemsText, MembersText;
    var s := TreeText(j) + rest;
    match j
    case JNull => ReadLiteral(j, rest);
    case JBool(b) => ReadLiteral(j, rest);
    case JInt(i) =>
      IntTextShape(i);
      assert NumberChar(IntText(i)[0]);
      ReadNumberToken(j, TreeText(j), rest);
    case JFloat(token) => ReadNumberToken(j, token, rest);
    case JStr(text) =>
      assert s[1..] == Escape(text) + "\"" + rest;
      ReadEscapedText(text, rest);
    case JArr(items) => ReadArrayText(j, rest);
    case JObj(fields) => ReadObjectText(j, rest);
  }

  lemma {:induction false} ReadArrayText(j: Json, rest: string)
    requires j.JArr? && TreeOk(j)
    ensures ReadValue(TreeText(j) + rest) == Some((j, rest))
    decreases j, 0
  {
    if j.items == [] {
      assert TreeText(j) + rest == "[]" + rest;
      assert ("[]" + rest)[2..] == rest;
    } else {
      var body := ItemsText(j.items);
      ReadItemsText(j.items, rest);
      ReadBracketed(body, j.items, rest);
      Assoc("[" + body, "]", rest);
      Assoc("[", body, "]" + rest);
      Assoc(body, "]", rest);
    }
  }

  lemma ReadBracketed(body: string, items: seq<Json>, rest: string)
    requires body != [] && body[0] != ']'
    requires ReadItems(body + "]" + rest) == Some((items, rest))
    ensures ReadValue("[" + (body + "]" + rest)) == Some((JArr(items), rest))
  {
    hide ReadItems, ReadMembers, ReadNumber;
    var s := "[" + (body + "]" + rest);
    assert s[1..] == body + "]" + rest;
    assert s[0] == '[' && s[1] == body[0];
  }

  lemma ReadOneItem(text: string, value: Json, tail: string)
    requires tail != [] && ReadValue(text + tail) == Some((value, tail))
    ensures tail[0] == ']' ==> ReadItems(text + tail) == Some(([value], tail[1..]))
    ensures tail[0] == ',' && ReadItems(tail[1..]).Some? ==>
              ReadItems(text + tail)
              == Some(([value] + ReadItems(tail[1..]).value.0, ReadItems(tail[1..]).value.1))
  {
    hide ReadValue;
  }

  lemma {:induction false} ReadItemsText(items: seq<Json>, rest: string)
    requires items != []
    requires forall i :: 0 <= i < |items| ==> TreeOk(items[i])
    ensures ReadItems(ItemsText(items) + "]" + rest) == Some((items, rest))
    ensures ItemsText(items) != [] && ItemsText(items)[0] != ']'
    decreases items, 0
  {
    hide ReadItems, ReadValue, TreeText, TreeOk;
    var text := TreeText(items[0]);
    var closer := "]" + rest;
    assert closer[1..] == rest;
    if |items| == 1 {
      ReadTreeText(items[0], closer);
      ReadOneItem(text, items[0], closer);
      Assoc(text, "]", rest);
      assert items == [items[0]];
    } else {
      var inner := ItemsText(items[1..]);
      ReadItemsText(items[1..], rest);
      Assoc(inner, "]", rest);
      var tail := "," + (inner + closer);
      assert tail[1..] == inner + closer;
      ReadTreeText(items[0], tail);
      ReadOneItem(text, items[0], tail);
      Assoc(text + "," + inner, "]", rest);
      Assoc(text + ",", inner, closer);
      Assoc(text, ",", inner + closer);
      assert items == [items[0]] + items[1..];
    }
  }

  lemma {:induction false} ReadObjectText(j: Json, rest: string)
    requires j.JObj? && TreeOk(j)
    ensures ReadValue(TreeText(j) + rest) == Some((j, rest))
    decreases j, 0
  {
    hide ReadMembers, ReadItems, MembersText, SortedNames, Render, TreeOk;
    var names := SortedNames(j.fields.Keys);
    var body := Render(MembersText(j, names));
    assert forall k :: k in j.fields ==> Member(k, "") in names;
    if names == [] {
      ReadEmptyObject(j, rest);
    } else {
      SortedNamesSorted(j.fields.Keys);
      ReadMembersText(j, names, rest);
      assert Picked(j, names) == j.fields;
      ReadBraced(body, j.fields, rest);
      assert TreeText(j) == "{" + body + "}";
      Assoc("{" + body, "}", rest);
      Assoc("{", body, "}" + rest);
      Assoc(body, "}", rest);
    }
  }

  lemma ReadEmptyObject(j: Json, rest: string)
    requires j.JObj? && SortedNames(j.fields.Keys) == []
    ensures ReadValue(TreeText(j) + rest) == Some((j, rest))
  {
    assert forall k :: k in j.fields ==> Member(k, "") in SortedNames(j.fields.Keys);
    assert j.fields == map[];
    assert TreeText(j) + rest == "{}" + rest;
    assert ("{}" + rest)[2..] == rest;
  }

  lemma Assoc(a: string, b: string, c: string)
    ensures (a + b) + c == a + (b + c)
  {
  }

  /** A rendered list and a closer, cut after the first member's text. */
  lemma RenderHead(ms: seq<Member>, closer: string)
    requires ms != []
    ensures var tail := if |ms| == 1 then closer else "," + (Render(ms[1..]) + closer);
            Render(ms) + closer == Quote(ms[0].name) + ":" + (ms[0].text + tail)
  {
    var head := Quote(ms[0].name) + ":";
    if |ms| == 1 {
      Assoc(head, ms[0].text, closer);
    } else {
      CutAfterText(head, ms[0].text, Render(ms[1..]), closer);
    }
  }

  lemma RenderStarts(ms: seq<Member>)
    requires ms != []
    ensures Render(ms) != [] && Render(ms)[0] == '"'
  {
    assert Quote(ms[0].name)[0] == '"';
  }

  lemma CutAfterText(head: string, text: string, inner: string, closer: string)
    ensures head + text + "," + inner + closer == head + (text + ("," + (inner + closer)))
  {
    Assoc(head + text + ",", inner, closer);
    Assoc(head + text, ",", inner + closer);
    Assoc(head, text, "," + (inner + closer));
  }

  /** The part of an object that a list of names covers. */
  ghost function Picked(j: Json, names: seq<Member>): map<string, Json>
    requires j.JObj?
  {
    map k | k in j.fields && Member(k, "") in names :: j.fields[k]
  }

  lemma PickedHead(j: Json, names: seq<Member>)
    requires j.JObj? && names != []
    requires names[0].name in j.fields && names[0].text == ""
    requires StrictlySorted(names)
    ensures Picked(j, names) == map[names[0].name := j.fields[names[0].name]] + Picked(j, names[1..])
  {
    assert names == [names[0]] + names[1..];
    if names[0] in names[1..] {
      BelowIrreflexive(names[0].name);
    }
    forall k
      ensures Member(k, "") in names <==> k == names[0].name || Member(k, "") in names[1..]
    {
    }
  }

  lemma ReadBraced(body: string, fields: map<string, Json>, rest: string)
    requires body != [] && body[0] == '"'
    requires ReadMembers(body + "}" + rest) == Some((fields, rest))
    ensures ReadValue("{" + (body + "}" + rest)) == Some((JObj(fields), rest))
  {
    var s := "{" + (body + "}" + rest);
    assert s[1..] == body + "}" + rest;
    assert s[0] == '{' && s[1] == '"';
  }

  lemma ReadOneName(name: string, after: string)
    ensures ReadText((Quote(name) + ":" + after)[1..]) == Some((name, ":" + after))
    ensures (":" + after)[1..] == after
  {
    assert (Quote(name) + ":" + after)[1..] == Escape(name) + "\"" + (":" + after);
    ReadEscapedText(name, ":" + after);
  }

  lemma ReadOneMember(name: string, text: string, value: Json, tail: string)
    requires tail != [] && ReadValue(text + tail) == Some((value, tail))
    ensures tail[0] == '}' ==>
              ReadMembers(Quote(name) + ":" + (text + tail)) == Some((map[name := value], tail[1..]))
    ensures tail[0] == ',' && ReadMembers(tail[1..]).Some? ==>
              (var (fields, after) := ReadMembers(tail[1..]).value;
               ReadMembers(Quote(name) + ":" + (text + tail)) == Some((map[name := value] + fields, after)))
  {
    var s := Quote(name) + ":" + (text + tail);
    assert s[0] == '"';
    ReadOneName(name, text + tail);
  }

  /** Reading one member, its value already known to be readable, and going on with the rest. */
  lemma ReadFirstMember(j: Json, names: seq<Member>, closer: string, tail: string)
    requires j.JObj? && names != [] && StrictlySorted(names)
    requires forall x :: x in names ==> x.name in j.fields && x.text == ""
    requires closer != [] && closer[0] == '}'
    requires tail == if |names| == 1 then closer
                     else "," + (Render(MembersText(j, names[1..])) + closer)
    requires ReadValue(TreeText(j.fields[names[0].name]) + tail) == Some((j.fields[names[0].name], tail))
    requires |names| > 1 ==> ReadMembers(tail[1..]) == Some((Picked(j, names[1..]), closer[1..]))
    ensures ReadMembers(Render(MembersText(j, names)) + closer) == Some((Picked(j, names), closer[1..]))
    ensures Render(MembersText(j, names)) != [] && Render(MembersText(j, names))[0] == '"'
  {
    hide ReadMembers, ReadValue, TreeText, Quote;
    var ms := MembersText(j, names);
    assert ms[1..] == MembersText(j, names[1..]);
    RenderStarts(ms);
    var name, value := names[0].name, j.fields[names[0].name];
    assert ms[0] == Member(name, TreeText(value));
    RenderHead(ms, closer);
    assert Render(ms) + closer == Quote(name) + ":" + (TreeText(value) + tail);
    ReadOneMember(name, TreeText(value), value, tail);
    PickedHead(j, names);
    if |names| == 1 {
      assert Picked(j, names[1..]) == map[];
      assert Picked(j, names) == map[name := value];
    }
  }

  lemma {:induction false} ReadMembersText(j: Json, names: seq<Member>, rest: string)
    requires j.JObj? && TreeOk(j) && names != [] && StrictlySorted(names)
    requires forall x :: x in names ==> x.name in j.fields && x.text == ""
    ensures ReadMembers(Render(MembersText(j, names)) + "}" + rest) == Some((Picked(j, names), rest))
    ensures Render(MembersText(j, names)) != [] && Render(MembersText(j, names))[0] == '"'
    decreases j, 0, |names|
  {
    hide ReadMembers, ReadValue, TreeText, MembersText, Render, Picked;
    assert names[0] in names;
    var value := j.fields[names[0].name];
    var closer := "}" + rest;
    var tail := closer;
    if |names| > 1 {
      ReadMembersText(j, names[1..], rest);
      var inner := Render(MembersText(j, names[1..]));
      Assoc(inner, "}", rest);
      tail := "," + (inner + closer);
      assert tail[1..] == inner + closer;
    }
    assert closer[1..] == rest;
    ReadTreeText(value, tail);
    ReadFirstMember(j, names, closer, tail);
    Assoc(Render(MembersText(j, names)), "}", rest);
  }
}
