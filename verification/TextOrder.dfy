/** Code-point order on strings and sorting of object members by name. */
module TextOrder {

  /** Strict lexicographic order, as Python compares strings. */
  predicate Below(a: string, b: string) {
    b != [] && (a == [] || a[0] < b[0] || (a[0] == b[0] && Below(a[1..], b[1..])))
  }

  lemma {:induction false} BelowIrreflexive(a: string)
    ensures !Below(a, a)
  {
    if a == [] {
    } else {
      BelowIrreflexive(a[1..]);
    }
  }

  lemma {:induction false} BelowTransitive(a: string, b: string, c: string)
    requires Below(a, b) && Below(b, c)
    ensures Below(a, c)
  {
    if a == [] {
    } else if a[0] == b[0] == c[0] {
      BelowTransitive(a[1..], b[1..], c[1..]);
    }
  }

  lemma {:induction false} BelowTotal(a: string, b: string)
    ensures Below(a, b) || a == b || Below(b, a)
  {
    if a == [] || b == [] {
    } else {
      BelowTotal(a[1..], b[1..]);
      assert a == [a[0]] + a[1..] && b == [b[0]] + b[1..];
    }
  }

  /** Where two strings first differ decides, a proper prefix coming first. */
  lemma {:induction false} FirstDifferenceDecides(common: string, a: string, b: string)
    requires a == [] || b == [] || a[0] != b[0]
    ensures Below(common + a, common + b) <==> b != [] && (a == [] || a[0] < b[0])
  {
    if common == [] {
      assert common + a == a && common + b == b;
    } else {
      assert (common + a)[1..] == common[1..] + a && (common + b)[1..] == common[1..] + b;
      FirstDifferenceDecides(common[1..], a, b);
    }
  }

  /** One member of an object: its name and the text of its value. */
  datatype Member = Member(name: string, text: string)

  predicate StrictlySorted(ms: seq<Member>) {
    forall i, j :: 0 <= i < j < |ms| ==> Below(ms[i].name, ms[j].name)
  }

  predicate DistinctNames(ms: seq<Member>) {
    forall i, j :: 0 <= i < j < |ms| ==> ms[i].name != ms[j].name
  }

  function Insert(m: Member, ms: seq<Member>): (r: seq<Member>)
    ensures forall x :: x in r <==> x == m || x in ms
  {
    if ms == [] then [m]
    else if Below(ms[0].name, m.name) then
      assert ms == [ms[0]] + ms[1..];
      [ms[0]] + Insert(m, ms[1..])
    else [m] + ms
  }

  /** Members in ascending order of their names. */
  function Sort(ms: seq<Member>): (r: seq<Member>)
    ensures forall x :: x in r <==> x in ms
  {
    if ms == [] then []
    else
      assert ms == [ms[0]] + ms[1..];
      Insert(ms[0], Sort(ms[1..]))
  }

  lemma {:induction false} InsertSorts(m: Member, ms: seq<Member>)
    requires StrictlySorted(ms)
    requires forall x :: x in ms ==> x.name != m.name
    ensures StrictlySorted(Insert(m, ms))
  {
    if ms == [] {
    } else if Below(ms[0].name, m.name) {
      InsertSorts(m, ms[1..]);
      var tail := Insert(m, ms[1..]);
      forall x | x in tail
        ensures Below(ms[0].name, x.name)
      {
        if x != m {
          assert x in ms[1..];
        }
      }
    } else {
      BelowTotal(ms[0].name, m.name);
      assert ms[0] in ms;
      forall x | x in ms
        ensures Below(m.name, x.name)
      {
        if x != ms[0] {
          BelowTransitive(m.name, ms[0].name, x.name);
        }
      }
    }
  }

  lemma {:induction false} SortSorts(ms: seq<Member>)
    requires DistinctNames(ms)
    ensures StrictlySorted(Sort(ms))
  {
    if ms == [] {
    } else {
      SortSorts(ms[1..]);
      InsertSorts(ms[0], Sort(ms[1..]));
    }
  }

  /** A strictly sorted list is determined by the set of its members. */
  lemma {:induction false} SortedUnique(a: seq<Member>, b: seq<Member>)
    requires StrictlySorted(a) && StrictlySorted(b)
    requires forall x :: x in a <==> x in b
    ensures a == b
  {
    assert |a| > 0 ==> a[0] in b;
    assert |b| > 0 ==> b[0] in a;
    if a == [] || b == [] {
    } else {
      if a[0] != b[0] {
        var i :| 0 <= i < |b| && b[i] == a[0];
        var j :| 0 <= j < |a| && a[j] == b[0];
        BelowTransitive(a[0].name, b[0].name, a[0].name);
        BelowIrreflexive(a[0].name);
      }
      forall x
        ensures x in a[1..] <==> x in b[1..]
      {
        BelowIrreflexive(a[0].name);
        assert x in a[1..] ==> x in a && Below(a[0].name, x.name);
        assert x in b[1..] ==> x in b && Below(b[0].name, x.name);
        assert a == [a[0]] + a[1..] && b == [b[0]] + b[1..];
      }
      SortedUnique(a[1..], b[1..]);
      assert a == [a[0]] + a[1..] && b == [b[0]] + b[1..];
    }
  }
}
