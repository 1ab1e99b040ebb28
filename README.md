# URL parameters to event properties, in Dafny

A model of a small analytics plugin (`index.ts`). The plugin copies
selected query parameters of an event's `$current_url` into the event's
properties and can also copy them into the `$set` and `$set_once`
user-property objects. It has two stages:

- `setupPlugin` normalises the string-valued configuration once:
  - each of three flags is on only for the exact string `"true"`;
  - the comma-separated parameter list becomes a set of trimmed names.
- `processEvent` handles one event in place:
  - it parses `$current_url`;
  - it looks up each configured name in the query (lower-cased on both sides under `ignoreCase`);
  - it writes every non-empty value under `prefix + name + suffix`;
  - it mirrors that value into `$set[key]` and/or `$set_once["initial_" + key]`, creating those objects when they are missing.

The modules follow the program:

- `Strings` holds the string functions JavaScript provides:
  - ASCII `toLowerCase`;
  - `trim` with the ECMAScript white-space and line-terminator set;
  - `split` on one character, plus the `Set` collapse of duplicates.
- `SearchParams` holds the query as ordered `(name, value)` pairs, `URLSearchParams.get` (first match) and `convertSearchParams`.
- `Setup` holds the configuration record and the `PluginGlobal` class whose fields `setupPlugin` assigns.
- `Values` holds JavaScript property values and their truthiness.
- `Enrichment` specifies one run of `processEvent` as functions: `Process` over the loop `Enrich`. It also implements it as the method `ProcessEvent`, which updates an `Event` object in place with a `for` loop and is proved equal to `Process`.
- `EnrichmentProperties` states what a run achieves, independently of loop order, as the predicate `Reflects`:
  - the keys written and their values;
  - what `$set` and `$set_once` end up holding;
  - that every other property is untouched.

  It proves that the loop produces exactly that whenever nothing clashes (`NoClash`).

`new URL(...)` and the query-string parsing are a parameter `parseUrl`. It returns the parsed pairs, or `None` when the URL constructor throws.

Where the code does something a reader might not expect (the model follows the code):

- Configured names can be empty. A doubled or trailing comma, or a blank piece, yields the name `""` (`Setup.EmptyPieceGivesEmptyName`).
- The result is the same whatever the order of the configured names (`EnrichmentProperties.OrderIrrelevant`), provided two conditions hold. First, no written key is itself `$set` or `$set_once` while that mirror is switched on. Second, no mirror that is switched on finds its field holding a truthy non-object. Otherwise the code throws at the first name that yields a value and meets the clash, and what has been written by then can depend on the order (`EnrichmentProperties.OrderMattersOnClash`). If no name yields a value, nothing is written and nothing is thrown.
- Assigning a key of a truthy primitive `$set`/`$set_once` is a `TypeError` in the module's strict-mode code. The model reports it as the outcome `NotAnObject`, with the properties as far as they had been mutated. Even then, only the keys written for names that yielded a value and the mirrors that are switched on can have changed (`EnrichmentProperties.EnrichFrame`, `EnrichmentProperties.ProcessFrame`).

## Model

| member | source | states |
|---|---|---|
| Strings.LowerChar | index.ts:24 | `A`–`Z` map to `a`–`z`; every other character is kept |
| Strings.Lower | index.ts:24 | same length, each character lower-cased at the same position |
| Strings.LowerHasNoCapitals | index.ts:46 | a lower-cased string contains no capital letters |
| Strings.LowerIdempotent | index.ts:46 | lower-casing twice is lower-casing once |
| Strings.TrimStartRemovesSpace | index.ts:34 | the part `trimStart` removes is white space, the rest is a suffix that does not start with white space |
| Strings.TrimEndRemovesSpace | index.ts:34 | the part `trimEnd` removes is white space, the rest is a prefix that does not end with white space |
| Strings.TrimIsInfix | index.ts:34 | `trim` returns a contiguous slice of its input with only white space around it, which neither starts nor ends with white space |
| Strings.TrimIdempotent | index.ts:34 | trimming a trimmed string changes nothing |
| Strings.Split | index.ts:34 | `split(',')` yields at least one piece, and no piece contains a comma |
| Strings.JoinSplit | index.ts:34 | joining the pieces with the separator gives back the input |
| Strings.SplitJoin | index.ts:34 | splitting a join of separator-free pieces gives back the pieces |
| Strings.Dedup | index.ts:33-35 | the `Set` of a list holds no duplicates and exactly the list's elements |
| Strings.DedupOfDistinct | index.ts:33-35 | a list without duplicates is its own `Set` order |
| Strings.TrimAll | index.ts:34 | `map(p => p.trim())`: same length, each element trimmed |
| Strings.TrimAllMembers | index.ts:34 | a string is in the trimmed list iff it is the trim of some element |
| SearchParams.Get | index.ts:46 | `get` finds nothing iff no pair has the name, and otherwise finds the value of the first pair with the name |
| SearchParams.ConvertSearchParams | index.ts:23-25 | same length and order, each name lower-cased, each value kept |
| SearchParams.GetConverted | index.ts:23-25 | looking a key up in the converted query finds the first pair whose name lower-cases to the key, or nothing iff none does |
| SearchParams.ConvertLowerQuery | index.ts:23-25 | converting a query with lower-case names changes nothing |
| Setup.ParameterNames | index.ts:33-35 | an empty list gives no names; the names are distinct |
| Setup.DistinctTrims | index.ts:33-35 | the `Set` of the trimmed pieces: the names are distinct, and a string is a name iff it is the trim of some piece |
| Setup.ParameterNamesCharacterised | index.ts:33-35 | for a non-empty list, a string is a name iff it is the trim of some comma-separated piece |
| Setup.ParameterNamesTrimmed | index.ts:33-35 | every name is already trimmed |
| Setup.EmptyPieceGivesEmptyName | index.ts:33-35 | `","` and `" "` both give the single name `""` |
| Setup.PluginGlobal.SetupPlugin | index.ts:27-36 | each flag is true iff its configuration string is exactly `"true"`; the stored names are those of the list, distinct and trimmed |
| Strings.Trim | index.ts:34 | `trim`; its meaning is stated by `Strings.TrimIsInfix` and `Strings.TrimIdempotent` |
| Setup.IsTrue | index.ts:30-32 | the `=== 'true'` test; `Setup.PluginGlobal.SetupPlugin` states its use |
| Values.Truthy | index.ts:39-57 | JavaScript truthiness, used by `?.$current_url`, `if (value)` and the `{}` default of the mirrors; its meaning in use is stated by `EnrichmentProperties.NoUrlNoChange`, `EnrichmentProperties.FoundCharacterised` and `EnrichmentProperties.InjectEffect` |
| Values.TruthyAt | index.ts:39 | a key is present and holds a truthy value; stated in use by `EnrichmentProperties.NoUrlNoChange` and `EnrichmentProperties.InjectEffect` |
| Enrichment.SettingsOf | index.ts:41-56 | the settings read from `meta.global` and `meta.config`; `Enrichment.ProcessEvent` states their use |
| Enrichment.FoundIn | index.ts:41-46 | the lookup the loop performs on the URL's query; characterised by `EnrichmentProperties.FoundCharacterised` |
| Enrichment.GetOrCreate | index.ts:52-57 | the holder if it is truthy, otherwise `{}`; stated by `EnrichmentProperties.InjectEffect` (the old object, or `{}`) |
| Enrichment.WriteName | index.ts:46-60 | one iteration: nothing without a value, otherwise the `if (value)` branch; stated by `EnrichmentProperties.StepHit`, `EnrichmentProperties.EnrichCharacterised` and `EnrichmentProperties.EnrichFrame` |
| Enrichment.Event.constructor | index.ts:38 | the `PluginEvent` whose `properties` is updated in place; the new event holds the given properties |
| Enrichment.SearchIn | index.ts:41-43 | the query searched, converted under `ignoreCase`; characterised by `EnrichmentProperties.SearchCharacterised` |
| Enrichment.LookupKey | index.ts:46 | the name looked up, lower-cased under `ignoreCase`; characterised by `EnrichmentProperties.SearchCharacterised` |
| Enrichment.Found | index.ts:46-47 | the value a name yields, with an empty value counting as none; characterised by `EnrichmentProperties.FoundCharacterised` |
| Enrichment.PropertyKey | index.ts:48 | `prefix + name + suffix`; `EnrichmentProperties.PropertyKeyInjective` states that distinct names give distinct keys |
| Enrichment.Mirror | index.ts:52-58 | get-or-create of a holder and one key written into it, or the throw on a truthy primitive; stated by `EnrichmentProperties.InjectEffect`, `EnrichmentProperties.InjectFrame` and `EnrichmentProperties.PrimitiveSetThrows` |
| Enrichment.InjectValue | index.ts:48-59 | one matched name; its effect is stated by `EnrichmentProperties.InjectEffect` and, when it throws, `EnrichmentProperties.InjectFrame` |
| Enrichment.Enrich | index.ts:45-61 | the loop over the names; stated by `EnrichmentProperties.EnrichCharacterised`, `EnrichmentProperties.ReflectsUnique`, `EnrichmentProperties.OrderIrrelevant`, `EnrichmentProperties.EnrichFrame` and `Enrichment.EnrichStopsAtError` |
| Enrichment.Process | index.ts:38-65 | one run of `processEvent`; stated by `EnrichmentProperties.ProcessCharacterised`, `EnrichmentProperties.ProcessFrame`, `EnrichmentProperties.NoUrlNoChange` and `EnrichmentProperties.InvalidUrlNoChange` |
| Enrichment.EnrichStopsAtError | index.ts:45-61 | once an iteration throws, the later names change nothing |
| Enrichment.MirrorInPlace | index.ts:52-53 | get-or-create of a holder and one key written into it, in place, agrees with `Mirror`, including the throw on a truthy primitive |
| Enrichment.Inject | index.ts:48-59 | the body of `if (value)`, in place, agrees with `InjectValue` |
| Enrichment.ProcessEvent | index.ts:38-65 | the new properties and the outcome are those of `Process` on the old properties |
| EnrichmentProperties.NoUrlNoChange | index.ts:39 | without properties or without a truthy `$current_url`, the event is returned unchanged |
| EnrichmentProperties.InvalidUrlNoChange | index.ts:40 | an unparsable URL throws before anything is written |
| EnrichmentProperties.SearchCharacterised | index.ts:41-46 | the lookup finds the first pair whose name equals the configured name, or equals it after lower-casing both under `ignoreCase`, and finds nothing iff no pair does |
| EnrichmentProperties.FoundCharacterised | index.ts:46-47 | a name yields `v` iff `v` is non-empty and is the value of the first pair matching the name |
| EnrichmentProperties.CaseSensitiveMiss | index.ts:46 | without `ignoreCase`, `Source` does not find `source` |
| EnrichmentProperties.CaseInsensitiveHit | index.ts:41-46 | with `ignoreCase`, `Source` finds `source` |
| EnrichmentProperties.EmptyValueIsSkipped | index.ts:47 | an empty value counts as no value |
| EnrichmentProperties.PropertyKeyInjective | index.ts:48 | distinct names give distinct property keys |
| EnrichmentProperties.InjectEffect | index.ts:48-59 | for one matched name: the key holds the value; `$set` and `$set_once` (when on) are their old object, or `{}`, plus one key; no other key changes; no throw |
| EnrichmentProperties.InjectFrame | index.ts:48-59 | for one matched name, whether or not it throws: only its key and the mirrors that are on can change, and only such a mirror can throw |
| EnrichmentProperties.EnrichCharacterised | index.ts:45-61 | under `NoClash` the loop returns, and its result is what `Reflects` describes for the names that yield a value (values, mirrors, frame) |
| EnrichmentProperties.EnrichFrame | index.ts:45-61 | on every run, one that throws included: a key neither written for a name yielding a value nor a mirror that is on is unchanged, present or absent; a throw happens only at a mirror that is on, and only after some name yielded a value |
| EnrichmentProperties.ReflectsUnique | index.ts:45-61 | `Reflects` determines the properties completely |
| EnrichmentProperties.OrderIrrelevant | index.ts:45 | under `NoClash`, lists with the same names, in any order and with repetitions, give the same result |
| EnrichmentProperties.ProcessCharacterised | index.ts:38-65 | with a parsable `$current_url` and under `NoClash`, `processEvent` returns the event, whose properties are as `Reflects` says |
| EnrichmentProperties.ProcessFrame | index.ts:38-65 | with a parsable `$current_url`, whether `processEvent` returns or throws: the same frame as `EnrichFrame`, and only a mirror that is on can throw |
| EnrichmentProperties.ConfiguredCaseKey | index.ts:46-50 | under `ignoreCase` the key written keeps the configured spelling `Source`, not the lookup key |
| EnrichmentProperties.PrimitiveSetThrows | index.ts:50-53 | a truthy string in `$set` makes the mirror throw after the property was written |
| EnrichmentProperties.SetKeyThrows | index.ts:50-53 | a name whose key is `$set` overwrites the holder, and the mirror then throws |
| EnrichmentProperties.ClashFirst | index.ts:45-53 | with the clashing name first, the loop throws before the second name |
| EnrichmentProperties.OrdinaryFirst | index.ts:48-54 | one ordinary name writes its property and creates `$set` holding it |
| EnrichmentProperties.ClashLast | index.ts:45-53 | with the clashing name last, the first name and its mirror are written before the throw |
| EnrichmentProperties.OrderMattersOnClash | index.ts:45-53 | when names clash, the two orders leave different properties |

## Left out

- URL parsing (`new URL`, `url.searchParams`, and the copies made with `new URLSearchParams`) follows the WHATWG URL Standard and is not modelled. `parseUrl` stands for it: it returns the decoded pairs in order, or `None` when the constructor throws.
- Strings.Lower: lower-cases only ASCII `A`–`Z`. JavaScript's `toLowerCase` also maps non-ASCII letters using Unicode case data, which is not modelled.
- The plugin scaffold is not modelled: the `Plugin`, `PluginMeta` and `PluginEvent` types, the host that calls `setupPlugin` once and then `processEvent` per event, and the lifetime of `global`. The settings are passed explicitly.
- Strings.Dedup: the contract states distinctness and the elements, not that they come in order of first occurrence. By `OrderIrrelevant`, the order does not change the result when nothing clashes.
- A JavaScript `Set` is modelled as a duplicate-free sequence in insertion order; `OrderIrrelevant` shows when the order does not matter.
- Property values are reduced to null, booleans, integers, strings and objects. Floating-point numbers, `NaN`, arrays and functions are not modelled, and an absent key stands for `undefined`.
- Configuration fields are strings. A host that leaves `prefix` or `suffix` undefined would, in the source, produce the text `undefined` in the key; that case is not modelled.
- Objects are values, so aliasing is not modelled. A `$set` object shared with other code would also see the writes; the model cannot express that.
- Prototype behaviour is not modelled: inherited properties, setters, and keys such as `__proto__`.
- Non-strict-mode semantics are not modelled. There, writing into a primitive is silently ignored instead of throwing.
- Exceptions are returned as an `Outcome` rather than propagated.
- Dafny strings are sequences of Unicode scalar values, whereas JavaScript strings are sequences of UTF-16 code units. A lone surrogate cannot be represented, and lengths differ for characters outside the Basic Multilingual Plane.
- `Properties` is an unordered map, so the insertion order of keys in a JavaScript object is not modelled.
- Event fields other than `properties` are not modelled, since the code does not touch them.
