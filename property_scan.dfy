/**
  The value-level view of a control's custom properties: an ordered sequence of
  name/value entries, and the three scans the service performs over it.
  Every method of CustomPropertyService is specified by one of these functions.
 */
module PropertyScan {
  import opened Wrappers

  /** One custom property as it stands at a given moment: the `{Name, Value}` record. */
  datatype Entry<V> = Entry(name: string, value: V)

  /** Some entry carries the given name (exact, case-sensitive equality). */
  predicate Has<V>(s: seq<Entry<V>>, name: string)
  {
    exists i :: 0 <= i < |s| && s[i].name == name
  }

  /** Every requested name is carried by some entry. */
  predicate HasAll<V>(s: seq<Entry<V>>, names: seq<string>)
  {
    forall j :: 0 <= j < |names| ==> Has(s, names[j])
  }

  /** The value of the last entry with the given name, or None when there is none. */
  function LastValue<V>(s: seq<Entry<V>>, name: string): (r: Option<V>)
  {
    if s == [] then None
    else if s[|s| - 1].name == name then Some(s[|s| - 1].value)
    else LastValue(s[..|s| - 1], name)
  }

  /** The entries with every entry named `name` given the value `value`. */
  function SetAll<V>(s: seq<Entry<V>>, name: string, value: V): (r: seq<Entry<V>>)
  {
    if s == [] then []
    else
      var last := s[|s| - 1];
      SetAll(s[..|s| - 1], name, value) + [if last.name == name then last.(value := value) else last]
  }

  /** Index `i` holds a match for `name` and no later entry does. */
  ghost predicate LastMatchAt<V>(s: seq<Entry<V>>, name: string, i: int)
  {
    0 <= i < |s| && s[i].name == name && forall j :: i < j < |s| ==> s[j].name != name
  }

  /** A lookup finds a value exactly when the existence check finds the name. */
  lemma {:induction false} LastValueFoundIffHas<V>(s: seq<Entry<V>>, name: string)
    ensures LastValue(s, name).Some? <==> Has(s, name)
  {
    if s != [] {
      var prefix := s[..|s| - 1];
      LastValueFoundIffHas(prefix, name);
      if s[|s| - 1].name == name {
        assert s[|s| - 1].name == name;
      } else {
        if Has(prefix, name) {
          var i :| 0 <= i < |prefix| && prefix[i].name == name;
          assert s[i].name == name;
        }
        if Has(s, name) {
          var i :| 0 <= i < |s| && s[i].name == name;
          assert prefix[i].name == name;
        }
      }
    }
  }

  /** A match at `i` with no later match is what the lookup returns. */
  lemma {:induction false} LastValueAtLastMatch<V>(s: seq<Entry<V>>, name: string, i: int)
    requires LastMatchAt(s, name, i)
    ensures LastValue(s, name) == Some(s[i].value)
  {
    if i < |s| - 1 {
      var prefix := s[..|s| - 1];
      assert LastMatchAt(prefix, name, i);
      LastValueAtLastMatch(prefix, name, i);
    }
  }

  /** A found value comes from a match that no later entry overrides. */
  lemma {:induction false} LastValueFromLastMatch<V>(s: seq<Entry<V>>, name: string)
    requires LastValue(s, name).Some?
    ensures exists i :: LastMatchAt(s, name, i) && s[i].value == LastValue(s, name).value
  {
    var prefix := s[..|s| - 1];
    if s[|s| - 1].name == name {
      assert LastMatchAt(s, name, |s| - 1);
    } else {
      LastValueFromLastMatch(prefix, name);
      var i :| LastMatchAt(prefix, name, i) && prefix[i].value == LastValue(prefix, name).value;
      assert LastMatchAt(s, name, i);
    }
  }

  /** Duplicate names: the lookup yields `v` exactly when `v` is the last match's value. */
  lemma {:induction false} LastValueIsLastMatch<V>(s: seq<Entry<V>>, name: string, v: V)
    ensures LastValue(s, name) == Some(v) <==> exists i :: LastMatchAt(s, name, i) && s[i].value == v
  {
    if LastValue(s, name) == Some(v) {
      LastValueFromLastMatch(s, name);
    }
    if exists i :: LastMatchAt(s, name, i) && s[i].value == v {
      var i :| LastMatchAt(s, name, i) && s[i].value == v;
      LastValueAtLastMatch(s, name, i);
    }
  }

  /** Setting never creates, drops or reorders entries and never renames one; it
      overwrites exactly the values of the matching entries. */
  lemma {:induction false} SetAllShape<V>(s: seq<Entry<V>>, name: string, value: V)
    ensures |SetAll(s, name, value)| == |s|
    ensures forall k :: 0 <= k < |s| ==>
      SetAll(s, name, value)[k].name == s[k].name &&
      SetAll(s, name, value)[k].value == (if s[k].name == name then value else s[k].value)
  {
    if s != [] {
      SetAllShape(s[..|s| - 1], name, value);
    }
  }

  /** Setting changes no answer of the existence check, for any name. */
  lemma SetAllKeepsNames<V>(s: seq<Entry<V>>, name: string, value: V, other: string)
    ensures Has(SetAll(s, name, value), other) <==> Has(s, other)
  {
    SetAllShape(s, name, value);
    var r := SetAll(s, name, value);
    if Has(s, other) {
      var i :| 0 <= i < |s| && s[i].name == other;
      assert r[i].name == other;
    }
    if Has(r, other) {
      var i :| 0 <= i < |r| && r[i].name == other;
      assert s[i].name == other;
    }
  }

  /** Setting a name twice to the same value is the same as setting it once. */
  lemma {:induction false} SetAllIdempotent<V>(s: seq<Entry<V>>, name: string, value: V)
    ensures SetAll(SetAll(s, name, value), name, value) == SetAll(s, name, value)
  {
    if s != [] {
      var prefix := s[..|s| - 1];
      var once := SetAll(s, name, value);
      SetAllIdempotent(prefix, name, value);
      assert once[..|once| - 1] == SetAll(prefix, name, value);
    }
  }

  /** A lookup after a set: the set name yields the new value when some entry
      carried it and None otherwise; every other name yields what it did before. */
  lemma {:induction false} LastValueAfterSetAll<V>(s: seq<Entry<V>>, name: string, value: V, other: string)
    ensures other == name ==>
      LastValue(SetAll(s, name, value), other) == if Has(s, name) then Some(value) else None
    ensures other != name ==> LastValue(SetAll(s, name, value), other) == LastValue(s, other)
  {
    if s == [] {
    } else {
      var prefix := s[..|s| - 1];
      var r := SetAll(s, name, value);
      LastValueAfterSetAll(prefix, name, value, other);
      assert r[..|r| - 1] == SetAll(prefix, name, value);
      if other == name && s[|s| - 1].name != name {
        LastValueFoundIffHas(s, name);
        LastValueFoundIffHas(prefix, name);
      }
    }
  }

  /** The batch existence check holds exactly when every batch lookup finds a value. */
  lemma HasAllIffAllFound<V>(s: seq<Entry<V>>, names: seq<string>)
    ensures HasAll(s, names) <==> forall j :: 0 <= j < |names| ==> LastValue(s, names[j]).Some?
  {
    forall j | 0 <= j < |names|
      ensures LastValue(s, names[j]).Some? <==> Has(s, names[j])
    {
      LastValueFoundIffHas(s, names[j]);
    }
  }

  /** With "A" present and "B" absent, the intended batch check of ["A", "B"] fails. */
  lemma BatchCheckOfPresentAndAbsent<V>(s: seq<Entry<V>>)
    requires Has(s, "A") && !Has(s, "B")
    ensures !HasAll(s, ["A", "B"])
  {
    assert ["A", "B"][1] == "B";
  }
}
