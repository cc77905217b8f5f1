/** Canonical text is a faithful, order-free name of a JSON tree. */
module CanonicalProofs {
  import opened Prelude
  import opened Decimal
  import opened TextOrder
  import opened Json
  import opened PyValues
  import opened Canonical

  // ------------------------------------------------ encoding a value writes its tree

  lemma {:induction false} FieldTreesAt(fields: seq<Field>, i: nat)
    requires forall j :: 0 <= j < |fields| ==> fields[j].key.NameKey? && Canonicalizable(fields[j].value)
    requires forall j, k :: 0 <= j < k < |fields| ==> fields[j].key != fields[k].key
    requires i < |fields|
    ensures FieldTrees(fields)[fields[i].key.name] == Tree(fields[i].value)
    decreases fields
  {
    if i == 0 {
      assert forall j :: 0 <= j < |fields| - 1 ==> fields[1..][j] == fields[j + 1];
      assert fields[0].key.name !in FieldTrees(fields[1..]);
    } else {
      assert fields[i] == fields[1..][i - 1];
      FieldTreesAt(fields[1..], i - 1);
    }
  }

  lemma {:induction false} EncodeFieldsAt(fields: seq<Field>, i: nat)
    requires forall j :: 0 <= j < |fields| ==> fields[j].key.NameKey? && Canonicalizable(fields[j].value)
    requires i < |fields|
    ensures EncodeFields(fields)[i] == Member(fields[i].key.name, Encode(fields[i].value))
    decreases fields
  {
    if i == 0 {
    } else {
      EncodeFieldsAt(fields[1..], i - 1);
    }
  }

  /** The text of a value is a function of its tree: key order and container type are gone. */
  lemma {:induction false} EncodeWritesTree(v: PyValue)
    requires Python(v) && Canonicalizable(v)
    ensures Encode(v) == TreeText(Tree(v))
    decreases v, 3
  {
    if v.PyList? || v.PyTuple? {
      EncodeWritesSequence(v);
    } else if v.PyDict? {
      EncodeWritesDict(v);
    }
  }

  lemma {:induction false} EncodeWritesSequence(v: PyValue)
    requires v.PyList? || v.PyTuple?
    requires Python(v) && Canonicalizable(v)
    ensures Encode(v) == TreeText(Tree(v))
    decreases v, 2
  {
    hide Encode, TreeText;
    var items := if v.PyList? then v.items else v.elements;
    EncodeWritesItems(items);
    assert Tree(v) == JArr(Trees(items));
    WrittenSequence(v, items);
  }

  lemma WrittenSequence(v: PyValue, items: seq<PyValue>)
    requires v == PyList(items) || v == PyTuple(items)
    requires Canonicalizable(v)
    requires EncodeItems(items) == ItemsText(Trees(items))
    ensures Encode(v) == TreeText(JArr(Trees(items)))
  {
    hide EncodeItems, ItemsText, Trees;
  }

  lemma {:induction false} EncodeWritesDict(v: PyValue)
    requires v.PyDict?
    requires Python(v) && Canonicalizable(v)
    ensures Encode(v) == TreeText(Tree(v))
    decreases v, 2
  {
    EncodeWritesFields(v);
    WrittenDict(v);
  }

  lemma WrittenDict(v: PyValue)
    requires v.PyDict? && Canonicalizable(v)
    requires Sort(EncodeFields(v.fields)) == MembersText(Tree(v), SortedNames(Tree(v).fields.Keys))
    ensures Encode(v) == TreeText(Tree(v))
  {
    hide EncodeFields, MembersText, SortedNames, FieldTrees, Sort, Render;
  }

  lemma {:induction false} EncodeWritesItems(items: seq<PyValue>)
    requires forall i :: 0 <= i < |items| ==> Python(items[i]) && Canonicalizable(items[i])
    ensures EncodeItems(items) == ItemsText(Trees(items))
    decreases items
  {
    if items == [] {
    } else {
      EncodeWritesTree(items[0]);
      EncodeWritesItems(items[1..]);
      assert Trees(items)[1..] == Trees(items[1..]);
    }
  }

  /** Members that say what the tree says, in any order, sort to the members the tree writes. */
  lemma MembersSortToTree(tree: Json, members: seq<Member>)
    requires tree.JObj? && DistinctNames(members)
    requires forall i :: 0 <= i < |members| ==>
               members[i].name in tree.fields && members[i].text == TreeText(tree.fields[members[i].name])
    requires forall k :: k in tree.fields ==> exists i :: 0 <= i < |members| && members[i].name == k
    ensures Sort(members) == MembersText(tree, SortedNames(tree.fields.Keys))
  {
    hide TreeText, Sort, SortedNames, MembersText;
    var names := SortedNames(tree.fields.Keys);
    var written := MembersText(tree, names);
    SortSorts(members);
    SortedNamesSorted(tree.fields.Keys);
    forall x | x in members
      ensures x in written
    {
      assert Member(x.name, "") in names;
      var k :| 0 <= k < |names| && names[k] == Member(x.name, "");
      assert written[k] == x;
    }
    forall x | x in written
      ensures x in members
    {
      var k :| 0 <= k < |written| && written[k] == x;
      assert names[k] in names;
      var i :| 0 <= i < |members| && members[i].name == x.name;
      assert members[i] == x;
    }
    SortedUnique(Sort(members), written);
  }

  lemma {:induction false} EncodeWritesField(v: PyValue, i: nat)
    requires v.PyDict? && Python(v) && Canonicalizable(v) && i < |v.fields|
    ensures v.fields[i].key.name in Tree(v).fields
    ensures EncodeFields(v.fields)[i]
         == Member(v.fields[i].key.name, TreeText(Tree(v).fields[v.fields[i].key.name]))
    decreases v, 0
  {
    EncodeFieldsAt(v.fields, i);
    FieldTreesAt(v.fields, i);
    EncodeWritesTree(FieldValue(v, i));
  }

  lemma {:induction false} EncodeWritesFields(v: PyValue)
    requires v.PyDict? && Python(v) && Canonicalizable(v)
    ensures Sort(EncodeFields(v.fields)) == MembersText(Tree(v), SortedNames(Tree(v).fields.Keys))
    decreases v, 1
  {
    var tree := Tree(v);
    var members := EncodeFields(v.fields);
    forall i | 0 <= i < |v.fields|
      ensures v.fields[i].key.name in tree.fields
      ensures members[i] == Member(v.fields[i].key.name, TreeText(tree.fields[v.fields[i].key.name]))
    {
      EncodeWritesField(v, i);
    }
    assert DistinctNames(members);
    forall k | k in tree.fields
      ensures exists i :: 0 <= i < |members| && members[i].name == k
    {
      var i :| 0 <= i < |v.fields| && v.fields[i].key.name == k;
      assert members[i].name == k;
    }
    MembersSortToTree(tree, members);
  }

  /** A field's value, known to be part of its dict. */
  function FieldValue(v: PyValue, i: nat): (value: PyValue)
    requires v.PyDict? && i < |v.fields|
    ensures value == v.fields[i].value && value < v
  {
    var f := v.fields[i];
    f.value
  }

  // ------------------------------------------------ what the text looks like

  lemma RenderTwo(a: Member, b: Member)
    ensures "{" + Render([a, b]) + "}" == "{" + Quote(a.name) + ":" + a.text + "," + Quote(b.name) + ":" + b.text + "}"
  {
    hide Quote;
    assert [a, b][1..] == [b];
    var rest := Quote(b.name) + ":" + b.text;
    assert Render([b]) == rest;
    var front := Quote(a.name) + ":" + a.text + ",";
    assert Render([a, b]) == front + rest;
    assert front + rest == front + Quote(b.name) + ":" + b.text;
  }

  lemma SortOne(a: Member)
    ensures Sort([a]) == [a]
  {
    assert [a][1..] == [] && Sort([]) == [];
  }

  lemma SortTwo(a: Member, b: Member)
    requires Below(a.name, b.name)
    ensures Sort([a, b]) == [a, b] && Sort([b, a]) == [a, b]
  {
    if Below(b.name, a.name) {
      BelowTransitive(a.name, b.name, a.name);
      BelowIrreflexive(a.name);
    }
    assert [a, b][1..] == [b] && [b, a][1..] == [a];
    SortOne(a);
    SortOne(b);
  }

  lemma EncodeTwo(f: Field, g: Field)
    requires f.key.NameKey? && g.key.NameKey? && Canonicalizable(f.value) && Canonicalizable(g.value)
    ensures EncodeFields([f, g]) == [Member(f.key.name, Encode(f.value)), Member(g.key.name, Encode(g.value))]
  {
    assert [f, g][1..] == [g];
    assert EncodeFields([g]) == [EncodeField(g)];
  }

  lemma TextOfTwo(f: Field, g: Field)
    requires f.key.NameKey? && g.key.NameKey? && Canonicalizable(f.value) && Canonicalizable(g.value)
    ensures CanonicalJson(f.value) == Ok(Encode(f.value)) && CanonicalJson(g.value) == Ok(Encode(g.value))
    ensures CanonicalJson(PyDict([f, g]))
         == Ok("{" + Render(Sort([Member(f.key.name, Encode(f.value)), Member(g.key.name, Encode(g.value))])) + "}")
  {
    hide Render, Sort, EncodeFields;
    EncodeTwo(f, g);
    assert Canonicalizable(PyDict([f, g]));
  }

  /** Members are sorted by name whatever their order, names are quoted, separators carry no blanks. */
  lemma TwoMembers(a: string, x: PyValue, b: string, y: PyValue)
    requires Canonicalizable(x) && Canonicalizable(y) && Below(a, b)
    ensures CanonicalJson(x).Ok? && CanonicalJson(y).Ok?
    ensures var text := "{" + Quote(a) + ":" + CanonicalJson(x).value + "," + Quote(b) + ":" + CanonicalJson(y).value + "}";
            && CanonicalJson(PyDict([Field(NameKey(a), x), Field(NameKey(b), y)])) == Ok(text)
            && CanonicalJson(PyDict([Field(NameKey(b), y), Field(NameKey(a), x)])) == Ok(text)
  {
    hide *;
    SortTwo(Member(a, Encode(x)), Member(b, Encode(y)));
    RenderTwo(Member(a, Encode(x)), Member(b, Encode(y)));
    TextOfTwo(Field(NameKey(a), x), Field(NameKey(b), y));
    TextOfTwo(Field(NameKey(b), y), Field(NameKey(a), x));
  }

  /** Text that needs no escape is written as it is, non-ASCII characters included. */
  lemma {:induction false} PlainText(s: string)
    requires forall i :: 0 <= i < |s| ==> s[i] as int >= 32 && s[i] != '"' && s[i] != '\\'
    ensures Escape(s) == s && CanonicalJson(PyStr(s)) == Ok("\"" + s + "\"")
  {
    if s == [] {
    } else {
      PlainText(s[1..]);
      assert s == [s[0]] + s[1..];
    }
  }
}
