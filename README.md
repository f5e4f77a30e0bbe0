# Custom property service — a Dafny model

This project models `CustomPropertyService`, the helper that gives controls "custom
properties". A control is a property bag. It may carry an ordered array of
`{Name, Value}` records, and the service offers five operations over it:

- `hasCustomProperty`: an existence check that stops at the first match;
- `hasCustomProperties`: a batch existence check;
- `getValueForCustomProperty`: a lookup that scans the whole array, so the last match wins;
- `getValuesForCustomProperties`: a batch lookup into a dictionary;
- `setValueForCustomProperty`: an in-place overwrite of every matching record's value.

The read operations use the control's `CustomProperties` field. The write operation uses a
differently named field, `SomeCustomProperty`.

## Structure

- `wrappers.dfy` — module `Wrappers`: `Option`, which stands for the JavaScript `null` result.
- `property_scan.dfy` — module `PropertyScan`: the value-level specification.
  - `Entry` is one record's name and value at a given moment.
  - `Has` is "some entry carries the name".
  - `HasAll` is "every requested name is carried".
  - `LastValue` is the value of the last matching entry.
  - `SetAll` gives every matching entry the new value.
  - The lemmas state what these mean and how they relate.
- `custom_property_service.dfy` — module `CustomPropertyService`: the heap model and the operations.
  - `Record` is a class. Its `name` is immutable and its `value` is mutable, as the service treats records.
  - `Control` is a class with two independent optional fields, `customProperties` and
    `someCustomProperty`, each an `array?<Record<V>>`. `null` stands for an absent field.
  - `View` maps an optional field to its entries in array order. An absent field has no entries.
  - Each operation is a method, proved against the scan functions. The existence check, the
    lookup, the batch lookup and the set keep the source's loops. The batch existence check as
    written has no loop: it renders only the first evaluation of the loop condition, whose
    falsy result skips the body.
  - Values have a type parameter `V` in place of `any`.

The read methods have no `modifies` clause, so they change nothing. In particular, two lookups
with nothing in between return the same value. An empty array is a present field; for every
read it behaves exactly like an absent one.

The batch existence check's loop condition is `i++`, which yields 0 on its first
evaluation, so the loop body never runs and no name is checked.

## Model

| member | source | states |
|---|---|---|
| `CustomPropertyService.HasCustomProperty` | src/app/service/custom-property.service.ts:19-31 | true exactly when some record of `CustomProperties` has the name; false when the field is absent; changes nothing |
| `CustomPropertyService.HasCustomProperties` | src/app/service/custom-property.service.ts:40-48 | as written, true for every control and every list of names |
| `CustomPropertyService.HasCustomPropertiesIntended` | src/app/service/custom-property.service.ts:33-48 | true exactly when every requested name is found (vacuously for no names), stopping at the first missing one |
| `CustomPropertyService.GetValueForCustomProperty` | src/app/service/custom-property.service.ts:57-68 | None when `CustomProperties` is absent or nothing matches; otherwise the value of the last matching record |
| `CustomPropertyService.GetValuesForCustomProperties` | src/app/service/custom-property.service.ts:77-86 | the dictionary's keys are exactly the requested names; each entry is that name's lookup result, None included; no names give an empty dictionary |
| `CustomPropertyService.OverwriteMatching` | src/app/service/custom-property.service.ts:98-102 | the array's records afterwards are the old entries with every match for the name given the new value; records outside the array are untouched |
| `CustomPropertyService.SetValueForCustomProperty` | src/app/service/custom-property.service.ts:95-104 | writes only through `SomeCustomProperty`: its entries become `SetAll` of the old ones; a no-op when the field is absent |
| `CustomPropertyService.SetValueForCustomPropertyIntended` | src/app/service/custom-property.service.ts:88-104 | the same overwrite through `CustomProperties`, the field all reads use |
| `CustomPropertyService.SetThenGet` | src/app/service/custom-property.service.ts:95-104 | a lookup after the set as written is unchanged when the two fields share no record; it is the new value (or None when nothing matched) when both fields hold one array |
| `CustomPropertyService.SetThenGetIntended` | src/app/service/custom-property.service.ts:88-104 | after the corrected set, a lookup returns the new value if a matching record existed, and None otherwise: set never creates a record |
| `CustomPropertyService.BatchCheckScenario` | src/app/service/custom-property.service.ts:40-48 | with only "A" on the control, the check as written accepts ["A", "B"] and the intended check refuses it |
| `CustomPropertyService.DuplicateNamesScenario` | src/app/service/custom-property.service.ts:57-104 | for records "X" = 1 then "X" = 2, the lookup gives 2; setting "X" to 9 updates both records |
| `CustomPropertyService.FieldMismatchScenario` | src/app/service/custom-property.service.ts:95-104 | a set as written on a control without `SomeCustomProperty` leaves the read value at 1; the corrected set makes it 2 |
| `PropertyScan.LastValueFoundIffHas` | src/app/service/custom-property.service.ts:57-68 | the lookup finds a value exactly when the existence check finds the name |
| `PropertyScan.LastValueAtLastMatch` | src/app/service/custom-property.service.ts:61-65 | a match with no later match is what the lookup returns |
| `PropertyScan.LastValueFromLastMatch` | src/app/service/custom-property.service.ts:61-65 | a found value comes from a match that no later record overrides |
| `PropertyScan.LastValueIsLastMatch` | src/app/service/custom-property.service.ts:61-65 | the lookup yields `v` if and only if `v` is the value of the last record with the name |
| `PropertyScan.SetAllShape` | src/app/service/custom-property.service.ts:97-102 | a set keeps the length, order and names; it overwrites exactly the matching values and leaves the rest unchanged |
| `PropertyScan.SetAllKeepsNames` | src/app/service/custom-property.service.ts:97-102 | a set changes no existence-check answer for any name: it never creates or removes a record |
| `PropertyScan.SetAllIdempotent` | src/app/service/custom-property.service.ts:99-101 | setting a name to a value twice has the same effect as setting it once |
| `PropertyScan.LastValueAfterSetAll` | src/app/service/custom-property.service.ts:95-104 | after a set, the set name looks up to the new value if it was present and None otherwise; every other name looks up as before |
| `PropertyScan.HasAllIffAllFound` | src/app/service/custom-property.service.ts:33-48 | the intended batch check holds exactly when every per-name lookup finds a value |
| `PropertyScan.BatchCheckOfPresentAndAbsent` | src/app/service/custom-property.service.ts:38 | with "A" present and "B" absent, the documented "all found" result for ["A", "B"] is false |

## Left out

- The Angular `@Injectable` decorator and the `@angular/core` import: dependency-injection wiring with no behaviour.
- `src/app/service/custom-property.interface.service.ts`: signatures and doc-comments only. Its operation names and comments informed the contracts.
- JavaScript's dynamic typing. A field is either absent (`null`) or an array. Other truthy or falsy values in the field are not modelled. Every record has a name, so a record with no `Name` is not represented; in the source such a record never matches.
- `any` values: the model uses a type parameter `V`.
- CustomPropertyService.GetValuesForCustomProperties: the result is a Dafny `map`, so the key order of the JavaScript object and prototype-key quirks of `{}` are not modelled.
- CustomPropertyService.HasCustomProperties: the loop body at lines 42-44 is not written out, because no execution reaches it (see above).
- Concurrency: the service is single-threaded and synchronous.
- A `null` or `undefined` control: the source throws a TypeError when it reads `control['CustomProperties']` (lines 21, 59) or `control['SomeCustomProperty']` (line 96). `Control<V>` is a non-null type, so the model rules this input out instead of modelling the throw.
- A `null` entry or a hole in a property array: the source throws a TypeError at `customProperties[i].Name` (lines 24, 62, 99). The model's arrays hold only non-null `Record`s, so it rules these inputs out instead of modelling the throw.
- The `null` result: the source returns a bare value, and `Some(v)` / `None` project to `v` / `null`. A matching record whose `Value` is `null` or `undefined` therefore reads, for a JavaScript caller, the same as "not found". The model keeps the two apart. So `PropertyScan.LastValueFoundIffHas` holds for the model's `Option`, not for the projected JavaScript result.

## Findings

| source | as written | input that shows it | evidently intended | confidence | as-written member | corrected member |
|---|---|---|---|---|---|---|
| src/app/service/custom-property.service.ts:41 | the loop's condition is `i++` and its update is `i < properties.length`, so the body never runs and the method returns true | a control holding only a record "A"; names ["A", "B"]: returns true | true only if every name is found (doc-comment at line 38); false here | high; not executed | CustomPropertyService.HasCustomProperties, CustomPropertyService.BatchCheckScenario | CustomPropertyService.HasCustomPropertiesIntended |
| src/app/service/custom-property.service.ts:96 | the set reads `control['SomeCustomProperty']`, while every read uses `control['CustomProperties']` (lines 21, 59) | a control whose `CustomProperties` holds "X" = 1 and which has no `SomeCustomProperty`: after setting "X" to 2, the lookup of "X" still returns 1 | the set writes the records the reads see, so set-then-get returns 2 | medium; not executed | CustomPropertyService.SetValueForCustomProperty, CustomPropertyService.FieldMismatchScenario | CustomPropertyService.SetValueForCustomPropertyIntended, CustomPropertyService.SetThenGetIntended |
