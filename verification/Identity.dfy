/** Operation identity: request hashes and downstream keys over an ideal hash and an ideal MAC. */
module Identity {
  import opened Prelude
  import opened Json
  import opened PyValues
  import opened Canonical
  import opened CanonicalProofs
  import opened CanonicalReader

  /** An ideal digest: it stands for the exact text it was computed from. */
  datatype Digest = Sha256(text: string)

  /** An ideal keyed hash. A tenant key is itself derived from the broker secret and the tenant. */
  datatype TenantKey = TenantKey(secret: string, tenantId: string)

  datatype DownstreamKey = Hmac(key: TenantKey, message: string)

  // ---------------------------------------------------------------- canonical text

  lemma {:induction false} TreeIsOk(v: PyValue)
    requires Python(v) && Canonicalizable(v)
    ensures TreeOk(Tree(v))
    decreases v, 0
  {
    match v
    case PyList(items) => TreesAreOk(items);
    case PyTuple(elements) => TreesAreOk(elements);
    case PyDict(fields) =>
      forall k | k in Tree(v).fields
        ensures TreeOk(Tree(v).fields[k])
      {
        var i :| 0 <= i < |fields| && fields[i].key.name == k;
        FieldTreesAt(fields, i);
        TreeIsOk(FieldValue(v, i));
      }
    case _ =>
  }

  lemma {:induction false} TreesAreOk(items: seq<PyValue>)
    requires forall i :: 0 <= i < |items| ==> Python(items[i]) && Canonicalizable(items[i])
    ensures forall i :: 0 <= i < |Trees(items)| ==> TreeOk(Trees(items)[i])
    decreases items
  {
    if items == [] {
    } else {
      TreeIsOk(items[0]);
      TreesAreOk(items[1..]);
      assert Trees(items) == [Tree(items[0])] + Trees(items[1..]);
    }
  }

  /** Canonicalisation is total on reproducible values, and reading the text gives the value back. */
  lemma CanonicalRoundTrip(v: PyValue)
    requires Python(v)
    ensures CanonicalJson(v).Ok? <==> Canonicalizable(v)
    ensures CanonicalJson(v).Ok? ==> ReadJson(CanonicalJson(v).value) == Some(Tree(v))
  {
    if Canonicalizable(v) {
      EncodeWritesTree(v);
      TreeIsOk(v);
      ReadTreeText(Tree(v), "");
      assert TreeText(Tree(v)) + "" == TreeText(Tree(v));
    }
  }

  /** Two values have the same canonical text exactly when they are the same JSON tree. */
  lemma SameTextIffSameTree(v: PyValue, w: PyValue)
    requires Python(v) && Python(w)
    requires Canonicalizable(v) && Canonicalizable(w)
    ensures CanonicalJson(v) == CanonicalJson(w) <==> Tree(v) == Tree(w)
  {
    CanonicalRoundTrip(v);
    CanonicalRoundTrip(w);
    EncodeWritesTree(v);
    EncodeWritesTree(w);
  }

  /** Reordering the fields of a dict does not change its text. */
  lemma FieldOrderIrrelevant(a: seq<Field>, b: seq<Field>)
    requires Python(PyDict(a)) && Python(PyDict(b))
    requires Canonicalizable(PyDict(a)) && Canonicalizable(PyDict(b))
    requires forall f :: f in a <==> f in b
    ensures CanonicalJson(PyDict(a)) == CanonicalJson(PyDict(b))
  {
    SameFieldsSameTree(a, b);
    SameTextIffSameTree(PyDict(a), PyDict(b));
  }

  lemma SameFieldsSameTree(a: seq<Field>, b: seq<Field>)
    requires Python(PyDict(a)) && Python(PyDict(b))
    requires Canonicalizable(PyDict(a)) && Canonicalizable(PyDict(b))
    requires forall f :: f in a <==> f in b
    ensures Tree(PyDict(a)) == Tree(PyDict(b))
  {
    forall k
      ensures k in FieldTrees(a) <==> k in FieldTrees(b)
      ensures k in FieldTrees(a) ==> FieldTrees(a)[k] == FieldTrees(b)[k]
    {
      if k in FieldTrees(a) {
        var i :| 0 <= i < |a| && a[i].key.name == k;
        assert a[i] in b;
        var j :| 0 <= j < |b| && b[j] == a[i];
        FieldTreesAt(a, i);
        FieldTreesAt(b, j);
      }
      if k in FieldTrees(b) {
        var i :| 0 <= i < |b| && b[i].key.name == k;
        assert b[i] in a;
      }
    }
    assert FieldTrees(a) == FieldTrees(b);
  }

  // ---------------------------------------------------------------- request hash

  /** The mapping whose canonical text is hashed. */
  function HashedPayload(tool: string, arguments: PyValue, contractName: string, contractVersion: string): PyValue {
    PyDict([
      Field(NameKey("tool"), PyStr(tool)),
      Field(NameKey("arguments"), arguments),
      Field(NameKey("contract_name"), PyStr(contractName)),
      Field(NameKey("contract_version"), PyStr(contractVersion))])
  }

  function RequestHash(tool: string, arguments: PyValue, contractName: string, contractVersion: string)
    : Result<Digest, CanonicalError>
  {
    match CanonicalJson(HashedPayload(tool, arguments, contractName, contractVersion))
    case Err(error) => Err(error)
    case Ok(text) => Ok(Sha256(text))
  }

  lemma DistinctPayloadNames()
    ensures "tool" != "arguments" && "tool" != "contract_name" && "tool" != "contract_version"
    ensures "arguments" != "contract_name" && "arguments" != "contract_version"
    ensures "contract_name" != "contract_version"
  {
    assert |"tool"| == 4 && |"arguments"| == 9 && |"contract_name"| == 13 && |"contract_version"| == 16;
  }

  ghost function PayloadFields(tool: string, arguments: Json, contractName: string, contractVersion: string)
    : map<string, Json>
  {
    map["tool" := JStr(tool), "arguments" := arguments,
        "contract_name" := JStr(contractName), "contract_version" := JStr(contractVersion)]
  }

  lemma PayloadFieldsInjective(
      tool: string, arguments: Json, contractName: string, contractVersion: string,
      tool': string, arguments': Json, contractName': string, contractVersion': string)
    requires PayloadFields(tool, arguments, contractName, contractVersion)
          == PayloadFields(tool', arguments', contractName', contractVersion')
    ensures tool == tool' && arguments == arguments'
    ensures contractName == contractName' && contractVersion == contractVersion'
  {
    DistinctPayloadNames();
    var a := PayloadFields(tool, arguments, contractName, contractVersion);
    assert a["tool"] == JStr(tool) && a["arguments"] == arguments;
    assert a["contract_name"] == JStr(contractName) && a["contract_version"] == JStr(contractVersion);
    var b := PayloadFields(tool', arguments', contractName', contractVersion');
    assert b["tool"] == JStr(tool') && b["arguments"] == arguments';
    assert b["contract_name"] == JStr(contractName') && b["contract_version"] == JStr(contractVersion');
  }

  lemma PayloadIsValue(tool: string, arguments: PyValue, contractName: string, contractVersion: string)
    requires Canonicalizable(arguments)
    ensures Canonicalizable(HashedPayload(tool, arguments, contractName, contractVersion))
    ensures Python(arguments) ==> Python(HashedPayload(tool, arguments, contractName, contractVersion))
  {
    DistinctPayloadNames();
  }

  /** A map that agrees with distinct fields one by one is the tree of those fields. */
  lemma FieldTreesAre(fields: seq<Field>, want: map<string, Json>)
    requires forall j :: 0 <= j < |fields| ==> fields[j].key.NameKey? && Canonicalizable(fields[j].value)
    requires forall j, k :: 0 <= j < k < |fields| ==> fields[j].key != fields[k].key
    requires forall j :: 0 <= j < |fields| ==>
               fields[j].key.name in want && want[fields[j].key.name] == Tree(fields[j].value)
    requires forall k :: k in want ==> exists j :: 0 <= j < |fields| && fields[j].key.name == k
    ensures FieldTrees(fields) == want
  {
    var names := seq(|fields|, i requires 0 <= i < |fields| => fields[i].key.name);
    var got := FieldTrees(fields);
    forall j | 0 <= j < |names|
      ensures names[j] in got && names[j] in want && got[names[j]] == want[names[j]]
    {
      FieldTreesAt(fields, j);
    }
    forall k | k in want
      ensures k in names
    {
      var j :| 0 <= j < |fields| && fields[j].key.name == k;
      assert names[j] == k;
    }
    forall k | k in got
      ensures k in names
    {
      var j :| 0 <= j < |fields| && fields[j].key.name == k;
      assert names[j] == k;
    }
    MapsAgree(names, got, want);
  }

  lemma MapsAgree(names: seq<string>, a: map<string, Json>, b: map<string, Json>)
    requires forall j :: 0 <= j < |names| ==>
               names[j] in a && names[j] in b && a[names[j]] == b[names[j]]
    requires forall k :: k in a || k in b ==> k in names
    ensures a == b
  {
    forall k | k in a || k in b
      ensures k in a && k in b && a[k] == b[k]
    {
      assert k in names;
    }
  }

  lemma PayloadTree(tool: string, arguments: PyValue, contractName: string, contractVersion: string)
    requires Canonicalizable(arguments)
    ensures var p := HashedPayload(tool, arguments, contractName, contractVersion);
            && Canonicalizable(p)
            && Tree(p) == JObj(PayloadFields(tool, Tree(arguments), contractName, contractVersion))
  {
    DistinctPayloadNames();
    PayloadIsValue(tool, arguments, contractName, contractVersion);
    hide FieldTrees;
    var fields := HashedPayload(tool, arguments, contractName, contractVersion).fields;
    var want := PayloadFields(tool, Tree(arguments), contractName, contractVersion);
    assert fields[0].key.name == "tool" && want["tool"] == Tree(fields[0].value);
    assert fields[1].key.name == "arguments" && want["arguments"] == Tree(fields[1].value);
    assert fields[2].key.name == "contract_name" && want["contract_name"] == Tree(fields[2].value);
    assert fields[3].key.name == "contract_version" && want["contract_version"] == Tree(fields[3].value);
    FieldTreesAre(fields, want);
  }

  /** A request has a hash exactly when its arguments are canonicalizable. */
  lemma HashExists(tool: string, arguments: PyValue, contractName: string, contractVersion: string)
    ensures RequestHash(tool, arguments, contractName, contractVersion).Ok? <==> Canonicalizable(arguments)
  {
    var p := HashedPayload(tool, arguments, contractName, contractVersion);
    if Canonicalizable(arguments) {
      PayloadTree(tool, arguments, contractName, contractVersion);
    } else {
      assert p.fields[1].value == arguments;
      assert !Canonicalizable(p);
    }
  }

  /** Equal hashes mean equal tool, equal argument trees and an equal pinned contract version. */
  lemma SameHashIffSamePayload(
      tool: string, arguments: PyValue, contractName: string, contractVersion: string,
      tool': string, arguments': PyValue, contractName': string, contractVersion': string)
    requires Python(arguments) && Python(arguments')
    requires Canonicalizable(arguments) && Canonicalizable(arguments')
    ensures RequestHash(tool, arguments, contractName, contractVersion)
         == RequestHash(tool', arguments', contractName', contractVersion')
       <==> && tool == tool' && Tree(arguments) == Tree(arguments')
            && contractName == contractName' && contractVersion == contractVersion'
  {
    PayloadTree(tool, arguments, contractName, contractVersion);
    PayloadTree(tool', arguments', contractName', contractVersion');
    PayloadIsValue(tool, arguments, contractName, contractVersion);
    PayloadIsValue(tool', arguments', contractName', contractVersion');
    var p := HashedPayload(tool, arguments, contractName, contractVersion);
    var q := HashedPayload(tool', arguments', contractName', contractVersion');
    SameTextIffSameTree(p, q);
    HashExists(tool, arguments, contractName, contractVersion);
    HashExists(tool', arguments', contractName', contractVersion');
    if Tree(p) == Tree(q) {
      PayloadFieldsInjective(tool, Tree(arguments), contractName, contractVersion,
                             tool', Tree(arguments'), contractName', contractVersion');
    }
  }

  // ---------------------------------------------------------------- downstream key

  const NUL: char := 0 as char

  function KeyMessage(tenantId: string, operationKey: string): string {
    tenantId + [NUL] + operationKey
  }

  function DeriveKey(key: TenantKey, tenantId: string, operationKey: string): DownstreamKey {
    Hmac(key, KeyMessage(tenantId, operationKey))
  }

  /** The key of an operation under keys derived per tenant from one broker secret. */
  function OperationKeyOf(secret: string, tenantId: string, operationKey: string): DownstreamKey {
    DeriveKey(TenantKey(secret, tenantId), tenantId, operationKey)
  }

  /** With per-tenant keys, distinct operations never share a key, whatever characters they hold. */
  lemma DistinctOperationsDistinctKeys(secret: string, t: string, o: string, t': string, o': string)
    requires OperationKeyOf(secret, t, o) == OperationKeyOf(secret, t', o')
    ensures t == t' && o == o'
  {
    assert KeyMessage(t, o)[|t| + 1..] == o;
    assert KeyMessage(t', o')[|t'| + 1..] == o';
  }

  /**
   * Under one key shared by two tenants the NUL separator is not enough: the tenants have
   * colliding operations exactly when one tenant id, followed by NUL, begins the other.
   */
  lemma SharedKeyCollidesIff(key: TenantKey, t: string, t': string)
    requires t != t'
    ensures (exists o: string, o': string :: DeriveKey(key, t, o) == DeriveKey(key, t', o'))
       <==> t + [NUL] <= t' + [NUL] || t' + [NUL] <= t + [NUL]
  {
    if o: string, o': string :| DeriveKey(key, t, o) == DeriveKey(key, t', o') {
      var m := KeyMessage(t, o);
      assert t + [NUL] == m[..|t| + 1];
      assert t' + [NUL] == m[..|t'| + 1];
      if |t| <= |t'| {
        assert m[..|t| + 1] == m[..|t'| + 1][..|t| + 1];
      } else {
        assert m[..|t'| + 1] == m[..|t| + 1][..|t'| + 1];
      }
    }
    if t + [NUL] <= t' + [NUL] {
      var o := (t' + [NUL])[|t| + 1..];
      assert KeyMessage(t, o) == KeyMessage(t', "");
      assert DeriveKey(key, t, o) == DeriveKey(key, t', "");
    } else if t' + [NUL] <= t + [NUL] {
      var o' := (t + [NUL])[|t'| + 1..];
      assert KeyMessage(t', o') == KeyMessage(t, "");
      assert DeriveKey(key, t, "") == DeriveKey(key, t', o');
    }
  }

  /** Tenant ids without NUL are separated even under a shared key. */
  lemma NulFreeTenantsSeparate(key: TenantKey, t: string, o: string, t': string, o': string)
    requires NUL !in t && NUL !in t'
    requires DeriveKey(key, t, o) == DeriveKey(key, t', o')
    ensures t == t' && o == o'
  {
    var m := KeyMessage(t, o);
    assert m[|t|] == NUL && m[|t'|] == NUL;
    assert forall i :: 0 <= i < |t| ==> m[i] == t[i];
    assert forall i :: 0 <= i < |t'| ==> m[i] == t'[i];
    assert |t| == |t'|;
    assert t == m[..|t|] == t';
    assert o == m[|t| + 1..] == o';
  }
}
