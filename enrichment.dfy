/**
 * The extractor/injector: `processEvent` reads the event's `$current_url`,
 * looks each configured parameter name up in the URL's query, and writes
 * every non-empty value into the event's properties (and, when configured,
 * into the `$set` and `$set_once` user-property objects).
 *
 * The functions below specify one run of the loop step by step; the method
 * `ProcessEvent` performs it in place on an `Event` object and is proved to
 * agree with them. What the run achieves is stated and proved in
 * module EnrichmentProperties.
 */
module Enrichment {
  import opened Wrappers
  import opened Strings
  import opened SearchParams
  import opened Setup
  import opened Values

  /** What one event's processing reads: the three flags of `global`, and the prefix and suffix of `config`. */
  datatype Settings = Settings(
    ignoreCase: bool,
    setAsInitialUserProperties: bool,
    setAsUserProperties: bool,
    prefix: string,
    suffix: string)

  /** How `processEvent` ends. */
  datatype Outcome =
    | Returned                   // it returned the event
    | InvalidUrl                 // `new URL($current_url)` threw
    | NotAnObject(field: string) // assigning into a truthy primitive `$set`/`$set_once` threw a TypeError

  /** The properties after (part of) the loop, and whether it got through. */
  datatype Run = Run(props: Properties, outcome: Outcome)

  /** The settings in force for an event, read from `meta.global` and `meta.config`. */
  function SettingsOf(global: PluginGlobal, config: PluginConfig): Settings
    reads global
  {
    Settings(global.ignoreCase, global.setAsInitialUserProperties, global.setAsUserProperties,
             config.prefix, config.suffix)
  }

  /** The query searched: lower-cased names under `ignoreCase`, the URL's own otherwise. */
  function SearchIn(st: Settings, q: Query): Query
  {
    if st.ignoreCase then ConvertSearchParams(q) else q
  }

  /** The name looked up for a configured name. */
  function LookupKey(st: Settings, name: string): string
  {
    if st.ignoreCase then Lower(name) else name
  }

  /** The value `processEvent` extracts for `name`: the looked-up value, when there is one and it is non-empty. */
  function Found(st: Settings, q: Query, name: string): Option<string>
  {
    match Get(SearchIn(st, q), LookupKey(st, name))
    case None => None
    case Some(v) => if v == "" then None else Some(v)
  }

  /** Where the loop gets each configured name's value from. */
  type Lookup = string -> Option<string>

  /** The lookup the loop performs on the query `q`. */
  function FoundIn(st: Settings, q: Query): Lookup
  {
    (name: string) => Found(st, q, name)
  }

  /** Applying the lookup is looking the name up. */
  lemma FoundInApplied(st: Settings, q: Query, name: string)
    ensures var v := Get(SearchIn(st, q), LookupKey(st, name));
      FoundIn(st, q)(name) == if v.Some? && v.value != "" then v else None
  {
  }

  /** `${prefix}${name}${suffix}`: the property key written for a configured name. */
  function PropertyKey(st: Settings, name: string): string
  {
    st.prefix + name + st.suffix
  }

  /** The prefix of every key written into `$set_once`. */
  const InitialPrefix: string := "initial_"

  /** `o[field] || {}`: the existing holder when it is truthy, a fresh empty object otherwise. */
  function GetOrCreate(o: Properties, field: string): Value
  {
    if TruthyAt(o, field) then o[field] else Obj(map[])
  }

  /**
   * `o[field] = o[field] || {}; o[field][key] = value`. Assigning a property
   * of a primitive is a TypeError in strict-mode code; the holder has then
   * already been written back.
   */
  function Mirror(o: Properties, field: string, key: string, value: string): Run
  {
    var holder := GetOrCreate(o, field);
    var o' := o[field := holder];
    match holder
    case Obj(m) => Run(o'[field := Obj(m[key := Str(value)])], Returned)
    case _ => Run(o', NotAnObject(field))
  }

  /** What one iteration writes once `name` has yielded the non-empty `value`. */
  function InjectValue(o: Properties, st: Settings, name: string, value: string): Run
  {
    var key := PropertyKey(st, name);
    var o1 := o[key := Str(value)];
    var r := if st.setAsUserProperties then Mirror(o1, "$set", key, value) else Run(o1, Returned);
    if r.outcome != Returned || !st.setAsInitialUserProperties then r
    else Mirror(r.props, "$set_once", InitialPrefix + key, value)
  }

  /** One iteration of the loop, for the configured `name` whose lookup gave `found`. */
  function WriteName(o: Properties, st: Settings, name: string, found: Option<string>): Run
  {
    match found
    case None => Run(o, Returned)
    case Some(v) => InjectValue(o, st, name, v)
  }

  /**
   * The loop over `names`, in order, stopping at the first TypeError;
   * `lookup` gives each name's extracted value.
   */
  function Enrich(o: Properties, st: Settings, lookup: Lookup, names: seq<string>): Run
    decreases |names|
  {
    if names == [] then Run(o, Returned)
    else
      var r := Enrich(o, st, lookup, names[..|names| - 1]);
      if r.outcome != Returned then r
      else WriteName(r.props, st, names[|names| - 1], lookup(names[|names| - 1]))
  }

  /**
   * The whole of `processEvent` on an event's properties: nothing happens
   * unless `$current_url` is truthy; an unparsable URL throws before any
   * change; otherwise the loop runs on the parsed query. `parseUrl` stands
   * for `new URL(...)` followed by reading its query pairs.
   */
  function Process(props: Option<Properties>, st: Settings, names: seq<string>,
                   parseUrl: Value -> Option<Query>): (Option<Properties>, Outcome)
  {
    if props.None? || !TruthyAt(props.value, "$current_url") then (props, Returned)
    else
      match parseUrl(props.value["$current_url"])
      case None => (props, InvalidUrl)
      case Some(q) =>
        var r := Enrich(props.value, st, FoundIn(st, q), names);
        (Some(r.props), r.outcome)
  }

  /** Once an iteration has thrown, the later names change nothing. */
  lemma {:induction false} EnrichStopsAtError(o: Properties, st: Settings, lookup: Lookup,
                                              names: seq<string>, i: nat)
    requires i <= |names|
    requires Enrich(o, st, lookup, names[..i]).outcome != Returned
    ensures Enrich(o, st, lookup, names) == Enrich(o, st, lookup, names[..i])
    decreases |names|
  {
    if i < |names| {
      var init := names[..|names| - 1];
      assert init[..i] == names[..i];
      EnrichStopsAtError(o, st, lookup, init, i);
    } else {
      assert names[..i] == names;
    }
  }

  /** An analytics event: only its optional `properties` object matters here. */
  class Event {
    var properties: Option<Properties>

    constructor(properties: Option<Properties>)
      ensures this.properties == properties
    {
      this.properties := properties;
    }
  }

  /**
   * `properties[field] = properties[field] || {}` followed by
   * `properties[field][key] = value`, in place; the new properties and the
   * outcome are those of `Mirror`.
   */
  method MirrorInPlace(event: Event, field: string, key: string, value: string) returns (outcome: Outcome)
    requires event.properties.Some?
    modifies event
    ensures event.properties.Some?
    ensures Run(event.properties.value, outcome) == Mirror(old(event.properties.value), field, key, value)
  {
    var holder := GetOrCreate(event.properties.value, field);
    event.properties := Some(event.properties.value[field := holder]);
    if !holder.Obj? {
      return NotAnObject(field);
    }
    event.properties := Some(event.properties.value[field := Obj(holder.fields[key := Str(value)])]);
    return Returned;
  }

  /**
   * The body of the `if (value)` branch, in place: the property itself,
   * then the `$set` and `$set_once` mirrors when their flags are on.
   */
  method Inject(event: Event, st: Settings, name: string, value: string) returns (outcome: Outcome)
    requires event.properties.Some?
    modifies event
    ensures event.properties.Some?
    ensures Run(event.properties.value, outcome) == InjectValue(old(event.properties.value), st, name, value)
  {
    var key := PropertyKey(st, name);
    event.properties := Some(event.properties.value[key := Str(value)]);
    outcome := Returned;
    if st.setAsUserProperties {
      outcome := MirrorInPlace(event, "$set", key, value);
      if outcome != Returned {
        return;
      }
    }
    if st.setAsInitialUserProperties {
      outcome := MirrorInPlace(event, "$set_once", InitialPrefix + key, value);
    }
  }

  /**
   * `processEvent(event, meta)`: updates `event.properties` in place and
   * reports how it ended; the new properties and the outcome are those of
   * `Process` on the old properties. The contract holds for any list of
   * names in `global`, not only one `setupPlugin` produced, so it does not
   * need the distinct, trimmed names that `setupPlugin` guarantees.
   */
  method ProcessEvent(event: Event, global: PluginGlobal, config: PluginConfig,
                      parseUrl: Value -> Option<Query>) returns (outcome: Outcome)
    modifies event
    ensures (event.properties, outcome)
         == Process(old(event.properties), SettingsOf(global, config), global.parameters, parseUrl)
  {
    outcome := Returned;
    if event.properties.None? || !TruthyAt(event.properties.value, "$current_url") {
      assert Process(old(event.properties), SettingsOf(global, config), global.parameters, parseUrl)
          == (event.properties, outcome);
      return;
    }
    var url := parseUrl(event.properties.value["$current_url"]);
    if url.None? {
      outcome := InvalidUrl;
      assert Process(old(event.properties), SettingsOf(global, config), global.parameters, parseUrl)
          == (event.properties, outcome);
      return;
    }
    var st := SettingsOf(global, config);
    var params := SearchIn(st, url.value);
    ghost var lookup := FoundIn(st, url.value);
    ghost var start := event.properties.value;
    var names := global.parameters;
    assert Process(old(event.properties), st, names, parseUrl)
        == (Some(Enrich(start, st, lookup, names).props), Enrich(start, st, lookup, names).outcome);
    for i := 0 to |names|
      invariant event.properties.Some? && outcome == Returned
      invariant Enrich(start, st, lookup, names[..i]) == Run(event.properties.value, Returned)
    {
      ghost var before := event.properties.value;
      var name := names[i];
      assert Enrich(start, st, lookup, names[..i + 1]) == WriteName(before, st, name, lookup(name)) by {
        assert names[..i + 1][..i] == names[..i];
        assert names[..i + 1][i] == name;
      }
      var value := Get(params, LookupKey(st, name));
      FoundInApplied(st, url.value, name);
      if value.Some? && value.value != "" {
        outcome := Inject(event, st, name, value.value);
        if outcome != Returned {
          EnrichStopsAtError(start, st, lookup, names, i + 1);
          return;
        }
      }
    }
    assert names[..|names|] == names;
  }
}
