/** Canonical JSON and the identities derived from it (src/effect_broker/canonical.py). */
module Canonical {
  import opened Prelude
  import opened Decimal
  import opened TextOrder
  import opened Json
  import opened PyValues

  datatype CanonicalError =
    | NonFiniteFloat(path: string)
    | NonStringKey(path: string)
    | BytesValue(path: string)
    | UnsupportedType(path: string)

  /** The first value that cannot be reproduced, in traversal order, or None. */
  function Validate(v: PyValue, path: string): (r: Option<CanonicalError>)
    ensures r.None? <==> Canonicalizable(v)
    decreases v, 0
  {
    match v
    case PyFloat(_, finite) => if finite then None else Some(NonFiniteFloat(path))
    case PyDict(fields) => ValidateFields(fields, path)
    case PyBytes => Some(BytesValue(path))
    case PyList(items) => ValidateItems(items, 0, path)
    case PyTuple(elements) => ValidateItems(elements, 0, path)
    case PyObject(_) => Some(UnsupportedType(path))
    case _ => None
  }

  function ValidateFields(fields: seq<Field>, path: string): (r: Option<CanonicalError>)
    ensures r.None? <==>
            forall i :: 0 <= i < |fields| ==> fields[i].key.NameKey? && Canonicalizable(fields[i].value)
    decreases fields
  {
    if fields == [] then None
    else
      var first := ValidateField(fields[0], path);
      assert forall i :: 1 <= i < |fields| ==> fields[i] == fields[1..][i - 1];
      assert forall i :: 0 <= i < |fields| - 1 ==> fields[1..][i] == fields[i + 1];
      if first.Some? then first else ValidateFields(fields[1..], path)
  }

  function ValidateField(f: Field, path: string): (r: Option<CanonicalError>)
    ensures r.None? <==> f.key.NameKey? && Canonicalizable(f.value)
    decreases f
  {
    match f.key
    case ForeignKey(_) => Some(NonStringKey(path))
    case NameKey(name) => Validate(f.value, path + "." + name)
  }

  function ValidateItems(items: seq<PyValue>, index: nat, path: string): (r: Option<CanonicalError>)
    ensures r.None? <==> forall i :: 0 <= i < |items| ==> Canonicalizable(items[i])
    decreases items
  {
    if items == [] then None
    else
      var first := Validate(items[0], path + "[" + Digits(index) + "]");
      assert forall i :: 1 <= i < |items| ==> items[i] == items[1..][i - 1];
      assert forall i :: 0 <= i < |items| - 1 ==> items[1..][i] == items[i + 1];
      if first.Some? then first else ValidateItems(items[1..], index + 1, path)
  }

  // ---------------------------------------------------------------- encoding

  function HexChar(d: nat): char
    requires d < 16
  {
    ("0123456789abcdef")[d]
  }

  /** One character inside a JSON string, escaped as section 7 of RFC 8259 asks. */
  function EscapeChar(c: char): (s: string)
    ensures |s| > 0
  {
    if c == '"' then "\\\""
    else if c == '\\' then "\\\\"
    else if c == '\n' then "\\n"
    else if c == '\r' then "\\r"
    else if c == '\t' then "\\t"
    else if c as int == 8 then "\\b"
    else if c as int == 12 then "\\f"
    else if c as int < 32 then "\\u00" + [HexChar(c as int / 16), HexChar(c as int % 16)]
    else [c]
  }

  function Escape(s: string): string {
    if s == [] then [] else EscapeChar(s[0]) + Escape(s[1..])
  }

  function Quote(s: string): string {
    "\"" + Escape(s) + "\""
  }

  /** Members separated by commas, names quoted, no blanks. */
  function Render(ms: seq<Member>): string {
    if ms == [] then ""
    else if |ms| == 1 then Quote(ms[0].name) + ":" + ms[0].text
    else Quote(ms[0].name) + ":" + ms[0].text + "," + Render(ms[1..])
  }

  function Encode(v: PyValue): string
    requires Canonicalizable(v)
    decreases v, 0
  {
    match v
    case PyNone => "null"
    case PyBool(b) => if b then "true" else "false"
    case PyInt(i) => IntText(i)
    case PyFloat(token, _) => token
    case PyStr(text) => Quote(text)
    case PyList(items) => "[" + EncodeItems(items) + "]"
    case PyTuple(elements) => "[" + EncodeItems(elements) + "]"
    case PyDict(fields) => "{" + Render(Sort(EncodeFields(fields))) + "}"
  }

  function EncodeItems(items: seq<PyValue>): string
    requires forall i :: 0 <= i < |items| ==> Canonicalizable(items[i])
    decreases items
  {
    if items == [] then ""
    else if |items| == 1 then Encode(items[0])
    else Encode(items[0]) + "," + EncodeItems(items[1..])
  }

  function EncodeField(f: Field): Member
    requires f.key.NameKey? && Canonicalizable(f.value)
    decreases f
  {
    Member(f.key.name, Encode(f.value))
  }

  function EncodeFields(fields: seq<Field>): (ms: seq<Member>)
    requires forall i :: 0 <= i < |fields| ==> fields[i].key.NameKey? && Canonicalizable(fields[i].value)
    ensures |ms| == |fields|
    decreases fields
  {
    if fields == [] then [] else [EncodeField(fields[0])] + EncodeFields(fields[1..])
  }

  /** The one canonical text of a value, or the reason it has none. */
  function CanonicalJson(v: PyValue): Result<string, CanonicalError> {
    match Validate(v, "$")
    case Some(error) => Err(error)
    case None => Ok(Encode(v))
  }

  // ------------------------------------------------ the text depends on the tree alone

  /** The names of a set in ascending order, as members without text. */
  ghost function SortedNames(names: set<string>): (r: seq<Member>)
    ensures forall x :: x in r <==> x.text == "" && x.name in names
    decreases |names|
  {
    if names == {} then []
    else
      var n :| n in names;
      Insert(Member(n, ""), SortedNames(names - {n}))
  }

  lemma {:induction false} SortedNamesSorted(names: set<string>)
    ensures StrictlySorted(SortedNames(names))
    decreases |names|
  {
    if names == {} {
    } else {
      var n :| n in names && SortedNames(names) == Insert(Member(n, ""), SortedNames(names - {n}));
      SortedNamesSorted(names - {n});
      InsertSorts(Member(n, ""), SortedNames(names - {n}));
    }
  }

  ghost function TreeText(j: Json): string
    decreases j, 0
  {
    match j
    case JNull => "null"
    case JBool(b) => if b then "true" else "false"
    case JInt(i) => IntText(i)
    case JFloat(token) => token
    case JStr(text) => Quote(text)
    case JArr(items) => "[" + ItemsText(items) + "]"
    case JObj(fields) => "{" + Render(MembersText(j, SortedNames(fields.Keys))) + "}"
  }

  ghost function ItemsText(items: seq<Json>): string
    decreases items
  {
    if items == [] then ""
    else if |items| == 1 then TreeText(items[0])
    else TreeText(items[0]) + "," + ItemsText(items[1..])
  }

  ghost function MembersText(j: Json, names: seq<Member>): (ms: seq<Member>)
    requires j.JObj?
    requires forall x :: x in names ==> x.name in j.fields
    ensures |ms| == |names|
    ensures forall i :: 0 <= i < |ms| ==> ms[i].name == names[i].name
    ensures forall i :: 0 <= i < |ms| ==> ms[i].text == TreeText(j.fields[ms[i].name])
    decreases j, 0, |names|
  {
    if names == [] then []
    else [Member(names[0].name, TreeText(j.fields[names[0].name]))] + MembersText(j, names[1..])
  }
}
