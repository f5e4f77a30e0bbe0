/**
  CustomPropertyService: existence checks, lookups and assignment of the named
  custom properties attached to a control.

  A control is a property bag with two optional fields that each hold an array of
  `{Name, Value}` records. The read operations look at `CustomProperties`; the
  write operation looks at `SomeCustomProperty`. The two fields are independent:
  they may hold the same array, two arrays sharing records, or unrelated arrays.
 */
module CustomPropertyService {
  import opened Wrappers
  import opened PropertyScan

  /** A `{Name, Value}` record: the service never renames one, it only overwrites `Value`. */
  class Record<V> {
    const name: string
    var value: V

    constructor (name: string, value: V)
      ensures this.name == name && this.value == value
    {
      this.name := name;
      this.value := value;
    }
  }

  /** A control, reduced to the two fields the service reaches into; `null` is an absent field. */
  class Control<V> {
    var customProperties: array?<Record<V>>
    var someCustomProperty: array?<Record<V>>

    constructor (customProperties: array?<Record<V>>, someCustomProperty: array?<Record<V>>)
      ensures this.customProperties == customProperties
      ensures this.someCustomProperty == someCustomProperty
    {
      this.customProperties := customProperties;
      this.someCustomProperty := someCustomProperty;
    }
  }

  /** The records an optional field's array refers to. */
  ghost function Records<V>(a: array?<Record<V>>): set<Record<V>>
    reads a
  {
    if a == null then {} else set i | 0 <= i < a.Length :: a[i]
  }

  /** What an optional field holds, as entries in array order; an absent field holds none. */
  ghost function View<V>(a: array?<Record<V>>): seq<Entry<V>>
    reads a, Records(a)
  {
    if a == null then []
    else seq(a.Length, i requires 0 <= i < a.Length reads a, Records(a) => Entry(a[i].name, a[i].value))
  }

  /** `hasCustomProperty`: scans `CustomProperties` and stops at the first match. */
  method HasCustomProperty<V>(control: Control<V>, property: string) returns (result: bool)
    ensures control.customProperties == null ==> !result
    ensures result == Has(View(control.customProperties), property)
  {
    result := false;
    var customProperties := control.customProperties;
    if customProperties != null {
      var i, len := 0, customProperties.Length;
      while i < len
        invariant 0 <= i <= len
        invariant !result
        invariant forall k :: 0 <= k < i ==> customProperties[k].name != property
      {
        if customProperties[i].name == property {
          result := true;
          assert View(customProperties)[i].name == property;
          break;
        }
        i := i + 1;
      }
    }
  }

  /**
    `hasCustomProperties` as written. Its loop is `for (let i = 0; i++; i < properties.length)`:
    the condition is `i++`, which yields the counter's initial value 0, a falsy value,
    so the loop exits before its body runs and the method falls through to `return true`
    whatever the control and the names. Only that first evaluation of the condition is
    rendered; the body it guards is unreachable.
   */
  method HasCustomProperties<V>(control: Control<V>, properties: seq<string>) returns (result: bool)
    ensures result
  {
    var i := 0;
    var test := i;  // the condition `i++` yields the counter before incrementing it
    i := i + 1;
    if test != 0 {
      // the loop body at lines 42-44 would run here; no execution reaches it
      assert false;
    }
    return true;
  }

  /** The documented intent of `hasCustomProperties`: check every name, stop at the first missing one. */
  method HasCustomPropertiesIntended<V>(control: Control<V>, properties: seq<string>) returns (result: bool)
    ensures result == HasAll(View(control.customProperties), properties)
  {
    for i := 0 to |properties|
      invariant forall j :: 0 <= j < i ==> Has(View(control.customProperties), properties[j])
    {
      ghost var entries := View(control.customProperties);
      var found := HasCustomProperty(control, properties[i]);
      assert View(control.customProperties) == entries;
      if !found {
        return false;
      }
    }
    return true;
  }

  /** `getValueForCustomProperty`: scans all of `CustomProperties`, so the last match wins. */
  method GetValueForCustomProperty<V>(control: Control<V>, property: string) returns (result: Option<V>)
    ensures control.customProperties == null ==> result == None
    ensures result == LastValue(View(control.customProperties), property)
  {
    result := None;
    var customProperties := control.customProperties;
    if customProperties != null {
      ghost var entries := View(customProperties);
      var i, len := 0, customProperties.Length;
      while i < len
        invariant 0 <= i <= len
        invariant result == LastValue(entries[..i], property)
      {
        assert entries[..i + 1][..i] == entries[..i];
        if customProperties[i].name == property {
          result := Some(customProperties[i].value);
        }
        i := i + 1;
      }
      assert entries[..len] == entries;
    }
  }

  /** `getValuesForCustomProperties`: one entry per requested name, holding that name's lookup. */
  method GetValuesForCustomProperties<V>(control: Control<V>, properties: seq<string>)
    returns (result: map<string, Option<V>>)
    ensures forall name :: name in result <==> name in properties
    ensures forall name :: name in result ==> result[name] == LastValue(View(control.customProperties), name)
  {
    result := map[];
    for i := 0 to |properties|
      invariant forall name :: name in result <==> name in properties[..i]
      invariant forall name :: name in result ==> result[name] == LastValue(View(control.customProperties), name)
    {
      assert properties[..i + 1] == properties[..i] + [properties[i]];
      ghost var entries := View(control.customProperties);
      var value := GetValueForCustomProperty(control, properties[i]);
      assert View(control.customProperties) == entries;
      result := result[properties[i] := value];
    }
    assert properties[..|properties|] == properties;
  }

  /** The loop of `setValueForCustomProperty`: overwrite the value of every record named `property`. */
  method OverwriteMatching<V>(customProperties: array<Record<V>>, property: string, value: V)
    modifies Records(customProperties)
    ensures View(customProperties) == SetAll(old(View(customProperties)), property, value)
  {
    var i, len := 0, customProperties.Length;
    while i < len
      invariant 0 <= i <= len
      invariant forall k :: 0 <= k < len && customProperties[k].name != property ==>
        customProperties[k].value == old(customProperties[k].value)
      invariant forall k :: 0 <= k < i && customProperties[k].name == property ==>
        customProperties[k].value == value
    {
      if customProperties[i].name == property {
        customProperties[i].value := value;
      }
      i := i + 1;
    }
    ghost var was := old(View(customProperties));
    SetAllShape(was, property, value);
  }

  /** `setValueForCustomProperty` as written: it writes through `SomeCustomProperty`. */
  method SetValueForCustomProperty<V>(control: Control<V>, property: string, value: V)
    modifies Records(control.someCustomProperty)
    ensures View(control.someCustomProperty) == SetAll(old(View(control.someCustomProperty)), property, value)
  {
    var customProperties := control.someCustomProperty;
    if customProperties != null {
      OverwriteMatching(customProperties, property, value);
    }
  }

  /** `setValueForCustomProperty` writing through `CustomProperties`, the field every read uses. */
  method SetValueForCustomPropertyIntended<V>(control: Control<V>, property: string, value: V)
    modifies Records(control.customProperties)
    ensures View(control.customProperties) == SetAll(old(View(control.customProperties)), property, value)
  {
    var customProperties := control.customProperties;
    if customProperties != null {
      OverwriteMatching(customProperties, property, value);
    }
  }

  /**
    A lookup, the set as written, and the same lookup again. The set reaches the
    lookup only through records the two fields share: with no shared record the
    lookup is unchanged, and with one array in both fields it sees the new value.
   */
  method SetThenGet<V>(control: Control<V>, property: string, value: V) returns (before: Option<V>, after: Option<V>)
    modifies Records(control.someCustomProperty)
    ensures before == old(LastValue(View(control.customProperties), property))
    ensures Records(control.customProperties) !! Records(control.someCustomProperty) ==> after == before
    ensures control.customProperties == control.someCustomProperty ==>
      after == if old(Has(View(control.customProperties), property)) then Some(value) else None
  {
    ghost var entries := View(control.customProperties);
    before := GetValueForCustomProperty(control, property);
    assert View(control.customProperties) == entries;
    SetValueForCustomProperty(control, property, value);
    after := GetValueForCustomProperty(control, property);
    if control.customProperties == control.someCustomProperty {
      LastValueAfterSetAll(old(View(control.customProperties)), property, value, property);
    }
  }

  /** The corrected set followed by a lookup: always the round trip the doc-comments describe. */
  method SetThenGetIntended<V>(control: Control<V>, property: string, value: V) returns (after: Option<V>)
    modifies Records(control.customProperties)
    ensures after == if old(Has(View(control.customProperties), property)) then Some(value) else None
  {
    SetValueForCustomPropertyIntended(control, property, value);
    after := GetValueForCustomProperty(control, property);
    LastValueAfterSetAll(old(View(control.customProperties)), property, value, property);
  }

  /** A control holding only "A": the batch check as written accepts ["A", "B"], the intended one refuses it. */
  method BatchCheckScenario() returns (asWritten: bool, intended: bool)
    ensures asWritten && !intended
  {
    var a := new Record("A", 1);
    var records := new Record<int>[1] [a];
    var control := new Control(records, records);
    asWritten := HasCustomProperties(control, ["A", "B"]);
    intended := HasCustomPropertiesIntended(control, ["A", "B"]);
    assert View(control.customProperties)[0].name == "A";
    assert !Has(View(control.customProperties), "B");
    BatchCheckOfPresentAndAbsent(View(control.customProperties));
  }

  /** Two records named "X" with values 1 then 2 in one array held by both fields:
      the lookup yields 2, and setting "X" to 9 updates both records. */
  method DuplicateNamesScenario() returns (first: Option<int>, afterSet: Option<int>, values: seq<int>)
    ensures first == Some(2) && afterSet == Some(9) && values == [9, 9]
  {
    var x1 := new Record("X", 1);
    var x2 := new Record("X", 2);
    var records := new Record<int>[2] [x1, x2];
    var control := new Control(records, records);
    first := GetValueForCustomProperty(control, "X");
    SetValueForCustomProperty(control, "X", 9);
    afterSet := GetValueForCustomProperty(control, "X");
    assert View(records)[1] == Entry("X", 9);
    values := [x1.value, x2.value];
    assert View(records)[0].value == x1.value;
  }

  /** A control whose `CustomProperties` holds "X" = 1 and which has no `SomeCustomProperty`:
      after the set as written "X" still reads 1; after the corrected set it reads 2. */
  method FieldMismatchScenario() returns (asWritten: Option<int>, intended: Option<int>)
    ensures asWritten == Some(1) && intended == Some(2)
  {
    var x := new Record("X", 1);
    var records := new Record<int>[1] [x];
    var control := new Control(records, null);
    SetValueForCustomProperty(control, "X", 2);
    asWritten := GetValueForCustomProperty(control, "X");
    SetValueForCustomPropertyIntended(control, "X", 2);
    intended := GetValueForCustomProperty(control, "X");
    assert View(records)[0] == Entry("X", 2);
  }
}
