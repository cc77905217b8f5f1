/** JSON trees: what a payload means once key order and Python container types are forgotten. */
module Json {

  datatype Json =
    | JNull
    | JBool(b: bool)
    | JInt(i: int)
    | JFloat(token: string)
    | JStr(text: string)
    | JArr(items: seq<Json>)
    | JObj(fields: map<string, Json>)

  /** Characters a JSON number is written with. */
  predicate NumberChar(c: char) {
    '0' <= c <= '9' || c == '-' || c == '+' || c == '.' || c == 'e'
  }

  /** The shape of repr() of a finite Python float: never mistaken for an integer. */
  predicate FloatToken(s: string) {
    && s != []
    && ('0' <= s[0] <= '9' || s[0] == '-')
    && (forall i :: 0 <= i < |s| ==> NumberChar(s[i]))
    && ('.' in s || 'e' in s)
  }

  /** Every float leaf carries the text of a finite float. */
  ghost predicate TreeOk(j: Json) {
    match j
    case JFloat(token) => FloatToken(token)
    case JArr(items) => forall i :: 0 <= i < |items| ==> TreeOk(items[i])
    case JObj(fields) => forall k :: k in fields ==> TreeOk(fields[k])
    case _ => true
  }
}

/** The Python values a caller can put into a request. */
module PyValues {
  import opened Prelude
  import opened Json

  datatype PyKey = NameKey(name: string) | ForeignKey(typeName: string)

  datatype Field = Field(key: PyKey, value: PyValue)

  datatype PyValue =
    | PyNone
    | PyBool(b: bool)
    | PyInt(i: int)
    | PyFloat(token: string, finite: bool)
    | PyStr(text: string)
    | PyList(items: seq<PyValue>)
    | PyTuple(elements: seq<PyValue>)
    | PyDict(fields: seq<Field>)
    | PyBytes
    | PyObject(typeName: string)

  /** What every Python value satisfies: dict keys are distinct, finite floats print as floats. */
  ghost predicate Python(v: PyValue) {
    match v
    case PyFloat(token, finite) => finite ==> FloatToken(token)
    case PyList(items) => forall i :: 0 <= i < |items| ==> Python(items[i])
    case PyTuple(elements) => forall i :: 0 <= i < |elements| ==> Python(elements[i])
    case PyDict(fields) =>
      && (forall i :: 0 <= i < |fields| ==> Python(fields[i].value))
      && (forall i, j :: 0 <= i < j < |fields| ==> fields[i].key != fields[j].key)
    case _ => true
  }

  /** No offending value at any depth: what canonicalisation demands. */
  ghost predicate Canonicalizable(v: PyValue) {
    match v
    case PyFloat(_, finite) => finite
    case PyList(items) => forall i :: 0 <= i < |items| ==> Canonicalizable(items[i])
    case PyTuple(elements) => forall i :: 0 <= i < |elements| ==> Canonicalizable(elements[i])
    case PyDict(fields) =>
      forall i :: 0 <= i < |fields| ==> fields[i].key.NameKey? && Canonicalizable(fields[i].value)
    case PyBytes => false
    case PyObject(_) => false
    case _ => true
  }

  /** The JSON tree a value denotes; a later field of the same name wins, as in a mapping. */
  ghost function Tree(v: PyValue): Json
    requires Canonicalizable(v)
    decreases v, 0
  {
    match v
    case PyNone => JNull
    case PyBool(b) => JBool(b)
    case PyInt(i) => JInt(i)
    case PyFloat(token, _) => JFloat(token)
    case PyStr(text) => JStr(text)
    case PyList(items) => JArr(Trees(items))
    case PyTuple(elements) => JArr(Trees(elements))
    case PyDict(fields) => JObj(FieldTrees(fields))
  }

  ghost function Trees(vs: seq<PyValue>): (r: seq<Json>)
    requires forall i :: 0 <= i < |vs| ==> Canonicalizable(vs[i])
    ensures |r| == |vs|
    decreases vs
  {
    if vs == [] then [] else [Tree(vs[0])] + Trees(vs[1..])
  }

  ghost function FieldTree(f: Field): Json
    requires Canonicalizable(f.value)
    decreases f
  {
    Tree(f.value)
  }

  ghost function FieldTrees(fields: seq<Field>): (r: map<string, Json>)
    requires forall i :: 0 <= i < |fields| ==> fields[i].key.NameKey? && Canonicalizable(fields[i].value)
    ensures forall k :: k in r <==> exists i :: 0 <= i < |fields| && fields[i].key.name == k
    decreases fields
  {
    if fields == [] then map[]
    else
      assert fields == [fields[0]] + fields[1..];
      map[fields[0].key.name := FieldTree(fields[0])] + FieldTrees(fields[1..])
  }
}
