/**
 * What `processEvent` achieves, stated without reference to the order of the
 * loop: which names match, which keys get written and with what, what the
 * `$set` and `$set_once` objects end up holding, and that nothing else
 * changes.
 */
module EnrichmentProperties {
  import opened Wrappers
  import opened Strings
  import opened SearchParams
  import opened Values
  import opened Enrichment

  // ---------------------------------------------------------------------
  // Events that are left alone
  // ---------------------------------------------------------------------

  /** An event without properties, or without a truthy `$current_url`, is returned as it was. */
  lemma NoUrlNoChange(props: Option<Properties>, st: Settings, names: seq<string>,
                      parseUrl: Value -> Option<Query>)
    requires props.None? || !TruthyAt(props.value, "$current_url")
    ensures Process(props, st, names, parseUrl) == (props, Returned)
  {
  }

  /** A `$current_url` that does not parse makes `processEvent` throw before anything is written. */
  lemma InvalidUrlNoChange(props: Option<Properties>, st: Settings, names: seq<string>,
                           parseUrl: Value -> Option<Query>)
    requires props.Some? && TruthyAt(props.value, "$current_url")
    requires parseUrl(props.value["$current_url"]).None?
    ensures Process(props, st, names, parseUrl) == (props, InvalidUrl)
  {
  }

  // ---------------------------------------------------------------------
  // Which value a configured name yields
  // ---------------------------------------------------------------------

  /** A query name answers to a configured name: exactly, or after lower-casing both under `ignoreCase`. */
  predicate NameMatches(st: Settings, queryName: string, name: string)
  {
    if st.ignoreCase then Lower(queryName) == Lower(name) else queryName == name
  }

  /** The lookup `processEvent` performs finds the first pair whose name answers to the configured name. */
  lemma SearchCharacterised(st: Settings, q: Query, name: string)
    ensures Get(SearchIn(st, q), LookupKey(st, name)).None? <==>
      forall i :: 0 <= i < |q| ==> !NameMatches(st, q[i].0, name)
    ensures Get(SearchIn(st, q), LookupKey(st, name)).Some? ==>
      exists i :: (&& 0 <= i < |q| && NameMatches(st, q[i].0, name)
                   && q[i].1 == Get(SearchIn(st, q), LookupKey(st, name)).value
                   && forall j :: 0 <= j < i ==> !NameMatches(st, q[j].0, name))
  {
  }

  /**
   * A configured name yields `v` exactly when `v` is non-empty and is the
   * value of the first query pair whose name answers to it.
   */
  lemma FoundCharacterised(st: Settings, q: Query, name: string, v: string)
    ensures Found(st, q, name) == Some(v) <==>
      && v != ""
      && exists i :: (&& 0 <= i < |q| && NameMatches(st, q[i].0, name) && q[i].1 == v
                      && forall j :: 0 <= j < i ==> !NameMatches(st, q[j].0, name))
  {
  }

  /** Without `ignoreCase`, a name whose only pairs differ from it in case yields nothing. */
  lemma CaseSensitiveMiss()
    ensures Found(Settings(false, false, false, "", ""), [("source", "bing")], "Source") == None
  {
  }

  /** With `ignoreCase`, the same name yields the value. */
  lemma CaseInsensitiveHit()
    ensures Found(Settings(true, false, false, "", ""), [("source", "bing")], "Source") == Some("bing")
  {
  }

  /** An empty value counts as no value. */
  lemma EmptyValueIsSkipped(st: Settings, name: string)
    ensures Found(st, [(LookupKey(st, name), "")], name) == None
  {
  }

  // ---------------------------------------------------------------------
  // Keys
  // ---------------------------------------------------------------------

  /** Distinct names give distinct property keys. */
  lemma PropertyKeyInjective(st: Settings, n: string, m: string)
    requires PropertyKey(st, n) == PropertyKey(st, m)
    ensures n == m
  {
    var k := PropertyKey(st, n);
    assert |n| == |m|;
    assert n == k[|st.prefix|..|st.prefix| + |n|];
    assert m == k[|st.prefix|..|st.prefix| + |m|];
  }

  /** Distinct names give distinct keys with a common prefix `tag`. */
  lemma TaggedKeyInjective(st: Settings, tag: string, n: string, m: string)
    requires tag + PropertyKey(st, n) == tag + PropertyKey(st, m)
    ensures n == m
  {
    var k := tag + PropertyKey(st, n);
    assert PropertyKey(st, n) == k[|tag|..];
    assert PropertyKey(st, m) == k[|tag|..];
    PropertyKeyInjective(st, n, m);
  }

  // ---------------------------------------------------------------------
  // One matched name
  // ---------------------------------------------------------------------

  /** The fields of `o[field]` before a mirror write: its own when it is an object, none otherwise. */
  function Base(o: Properties, field: string): map<string, Value>
  {
    if field in o && o[field].Obj? then o[field].fields else map[]
  }

  /** The user-property objects that the flags switch on are absent, falsy or objects. */
  predicate HoldersUsable(o: Properties, st: Settings)
  {
    && (st.setAsUserProperties && TruthyAt(o, "$set") ==> o["$set"].Obj?)
    && (st.setAsInitialUserProperties && TruthyAt(o, "$set_once") ==> o["$set_once"].Obj?)
  }

  /** A key that writing the property `key` may change: the key itself and the mirrors that are on. */
  predicate Exempt(st: Settings, key: string, k: string)
  {
    || k == key
    || (st.setAsUserProperties && k == "$set")
    || (st.setAsInitialUserProperties && k == "$set_once")
  }

  /**
   * Writing one matched value: the property key gets the value; `$set` and
   * `$set_once`, when their flags are on, become their old objects (or a
   * fresh empty one) with one more key; every other property is kept.
   */
  lemma InjectEffect(o: Properties, st: Settings, name: string, v: string)
    requires HoldersUsable(o, st)
    requires st.setAsUserProperties ==> PropertyKey(st, name) != "$set"
    requires st.setAsInitialUserProperties ==> PropertyKey(st, name) != "$set_once"
    ensures InjectValue(o, st, name, v).outcome == Returned
    ensures var o' := InjectValue(o, st, name, v).props;
      && PropertyKey(st, name) in o' && o'[PropertyKey(st, name)] == Str(v)
      && (st.setAsUserProperties ==>
            && "$set" in o'
            && o'["$set"] == Obj(Base(o, "$set")[PropertyKey(st, name) := Str(v)]))
      && (st.setAsInitialUserProperties ==>
            && "$set_once" in o'
            && o'["$set_once"] == Obj(Base(o, "$set_once")[InitialPrefix + PropertyKey(st, name) := Str(v)]))
      && (forall k :: !Exempt(st, PropertyKey(st, name), k) ==>
            (k in o' <==> k in o) && (k in o ==> o'[k] == o[k]))
  {
  }

  // ---------------------------------------------------------------------
  // The whole loop
  // ---------------------------------------------------------------------

  /** The configured names whose lookup yields a value. */
  ghost function Hits(lookup: Lookup, names: seq<string>): set<string>
  {
    set n | n in names && lookup(n).Some?
  }

  /** The keys written for the names in `hits`, each preceded by `tag`. */
  ghost function WrittenKeys(st: Settings, hits: set<string>, tag: string): set<string>
  {
    set n | n in hits :: tag + PropertyKey(st, n)
  }

  /**
   * `m` is `base` with, for every name in `hits`, `tag + key` set to the
   * name's value, and nothing else changed.
   */
  ghost predicate FieldsReflect(base: map<string, Value>, m: map<string, Value>,
                                st: Settings, lookup: Lookup, hits: set<string>, tag: string)
  {
    && (forall n :: n in hits ==>
          && lookup(n).Some?
          && tag + PropertyKey(st, n) in m
          && m[tag + PropertyKey(st, n)] == Str(lookup(n).value))
    && (forall k :: k !in WrittenKeys(st, hits, tag) ==>
          && (k in m <==> k in base)
          && (k in base ==> m[k] == base[k]))
  }

  /** A key that the mirrors rewrite once something has matched. */
  predicate Touched(st: Settings, hits: set<string>, k: string)
  {
    && hits != {}
    && ((st.setAsUserProperties && k == "$set") || (st.setAsInitialUserProperties && k == "$set_once"))
  }

  /**
   * `o` is what writing the names in `hits` should make of `o0`: every
   * such name's key holds its value; `$set` and `$set_once`, when switched
   * on and something matched, hold objects made of their old fields (none
   * when they held no object) extended with the matched keys (under
   * `initial_` for `$set_once`); every other key is unchanged, present or
   * absent.
   */
  ghost predicate Reflects(o0: Properties, o: Properties, st: Settings, lookup: Lookup, hits: set<string>)
  {
    && (forall n :: n in hits ==>
          && lookup(n).Some?
          && PropertyKey(st, n) in o
          && o[PropertyKey(st, n)] == Str(lookup(n).value))
    && (forall k :: k !in WrittenKeys(st, hits, "") && !Touched(st, hits, k) ==>
          && (k in o <==> k in o0)
          && (k in o0 ==> o[k] == o0[k]))
    && (st.setAsUserProperties && hits != {} ==>
          && "$set" in o && o["$set"].Obj?
          && FieldsReflect(Base(o0, "$set"), o["$set"].fields, st, lookup, hits, ""))
    && (st.setAsInitialUserProperties && hits != {} ==>
          && "$set_once" in o && o["$set_once"].Obj?
          && FieldsReflect(Base(o0, "$set_once"), o["$set_once"].fields, st, lookup, hits, InitialPrefix))
  }

  /**
   * The configurations under which the loop cannot throw: a mirror that is
   * on finds an object, or nothing truthy, in its field, and no written key
   * is itself that field.
   */
  ghost predicate NoClash(o0: Properties, st: Settings, hits: set<string>)
  {
    && HoldersUsable(o0, st)
    && (st.setAsUserProperties ==> "$set" !in WrittenKeys(st, hits, ""))
    && (st.setAsInitialUserProperties ==> "$set_once" !in WrittenKeys(st, hits, ""))
  }

  /** The hits of a longer list are those of the shorter one and possibly the new name. */
  lemma HitsSnoc(lookup: Lookup, xs: seq<string>, x: string)
    ensures lookup(x).Some? ==> Hits(lookup, xs + [x]) == Hits(lookup, xs) + {x}
    ensures lookup(x).None? ==> Hits(lookup, xs + [x]) == Hits(lookup, xs)
  {
  }

  /** Fewer hits write fewer keys. */
  lemma WrittenKeysMonotone(st: Settings, small: set<string>, large: set<string>, tag: string)
    requires small <= large
    ensures WrittenKeys(st, small, tag) <= WrittenKeys(st, large, tag)
  {
  }

  /** A hit's own key is among the written keys. */
  lemma WrittenKeyOf(st: Settings, hits: set<string>, n: string)
    requires n in hits
    ensures PropertyKey(st, n) in WrittenKeys(st, hits, "")
  {
    assert "" + PropertyKey(st, n) == PropertyKey(st, n);
  }

  /** Nothing has changed before the first name. */
  lemma ReflectsEmpty(o0: Properties, st: Settings, lookup: Lookup)
    ensures Reflects(o0, o0, st, lookup, {})
  {
  }

  /** A field map keeps reflecting the hits when the next hit is written into it. */
  lemma FieldsStep(base: map<string, Value>, m: map<string, Value>, st: Settings, lookup: Lookup,
                   hits: set<string>, x: string, tag: string)
    requires lookup(x).Some?
    requires FieldsReflect(base, m, st, lookup, hits, tag)
    ensures FieldsReflect(base, m[tag + PropertyKey(st, x) := Str(lookup(x).value)],
                          st, lookup, hits + {x}, tag)
  {
    var m' := m[tag + PropertyKey(st, x) := Str(lookup(x).value)];
    forall n | n in hits + {x}
      ensures tag + PropertyKey(st, n) in m' && m'[tag + PropertyKey(st, n)] == Str(lookup(n).value)
    {
      if tag + PropertyKey(st, n) == tag + PropertyKey(st, x) {
        TaggedKeyInjective(st, tag, n, x);
      }
    }
    WrittenKeysMonotone(st, hits, hits + {x}, tag);
  }

  /**
   * Before the next write, the mirror fields hold what `NoClash` allows and
   * reflect the hits so far.
   */
  lemma HoldersBefore(o0: Properties, o: Properties, st: Settings, lookup: Lookup, hits: set<string>)
    requires NoClash(o0, st, hits)
    requires Reflects(o0, o, st, lookup, hits)
    ensures HoldersUsable(o, st)
    ensures st.setAsUserProperties ==>
      FieldsReflect(Base(o0, "$set"), Base(o, "$set"), st, lookup, hits, "")
    ensures st.setAsInitialUserProperties ==>
      FieldsReflect(Base(o0, "$set_once"), Base(o, "$set_once"), st, lookup, hits, InitialPrefix)
  {
  }

  /** The keys of the hits, after the next write. */
  lemma HitKeysStep(o: Properties, o': Properties, st: Settings, lookup: Lookup, hits: set<string>, x: string)
    requires lookup(x).Some?
    requires forall n :: n in hits ==>
      lookup(n).Some? && PropertyKey(st, n) in o && o[PropertyKey(st, n)] == Str(lookup(n).value)
    requires PropertyKey(st, x) in o' && o'[PropertyKey(st, x)] == Str(lookup(x).value)
    requires forall k :: !Exempt(st, PropertyKey(st, x), k) ==>
      (k in o' <==> k in o) && (k in o ==> o'[k] == o[k])
    requires st.setAsUserProperties ==> "$set" !in WrittenKeys(st, hits, "")
    requires st.setAsInitialUserProperties ==> "$set_once" !in WrittenKeys(st, hits, "")
    ensures forall n :: n in hits + {x} ==>
      lookup(n).Some? && PropertyKey(st, n) in o' && o'[PropertyKey(st, n)] == Str(lookup(n).value)
  {
    forall n | n in hits + {x}
      ensures PropertyKey(st, n) in o' && o'[PropertyKey(st, n)] == Str(lookup(n).value)
    {
      if n != x {
        if PropertyKey(st, n) == PropertyKey(st, x) {
          PropertyKeyInjective(st, n, x);
        }
        WrittenKeyOf(st, hits, n);
      }
    }
  }

  /** The keys no write touches, after the next write. */
  lemma FrameStep(o0: Properties, o: Properties, o': Properties, st: Settings, hits: set<string>, x: string)
    requires forall k :: k !in WrittenKeys(st, hits, "") && !Touched(st, hits, k) ==>
      (k in o <==> k in o0) && (k in o0 ==> o[k] == o0[k])
    requires forall k :: !Exempt(st, PropertyKey(st, x), k) ==>
      (k in o' <==> k in o) && (k in o ==> o'[k] == o[k])
    ensures forall k :: k !in WrittenKeys(st, hits + {x}, "") && !Touched(st, hits + {x}, k) ==>
      (k in o' <==> k in o0) && (k in o0 ==> o'[k] == o0[k])
  {
    WrittenKeyOf(st, hits + {x}, x);
    WrittenKeysMonotone(st, hits, hits + {x}, "");
  }

  /** A mirror field, after the next write, reflects the hits so far and `x`. */
  lemma MirrorStep(o0: Properties, o: Properties, o': Properties, field: string, tag: string, key: string,
                   st: Settings, lookup: Lookup, hits: set<string>, x: string)
    requires lookup(x).Some? && key == tag + PropertyKey(st, x)
    requires FieldsReflect(Base(o0, field), Base(o, field), st, lookup, hits, tag)
    requires field in o' && o'[field] == Obj(Base(o, field)[key := Str(lookup(x).value)])
    ensures field in o' && o'[field].Obj?
    ensures FieldsReflect(Base(o0, field), o'[field].fields, st, lookup, hits + {x}, tag)
  {
    FieldsStep(Base(o0, field), Base(o, field), st, lookup, hits, x, tag);
  }

  /** After writing the hit `x`, the mirror fields that are on reflect the hits so far and `x`. */
  lemma MirrorsFromEffect(o0: Properties, o: Properties, o': Properties, st: Settings, lookup: Lookup,
                          hits: set<string>, x: string)
    requires lookup(x).Some?
    requires NoClash(o0, st, hits + {x})
    requires Reflects(o0, o, st, lookup, hits)
    requires st.setAsUserProperties ==>
      && "$set" in o'
      && o'["$set"] == Obj(Base(o, "$set")[PropertyKey(st, x) := Str(lookup(x).value)])
    requires st.setAsInitialUserProperties ==>
      && "$set_once" in o'
      && o'["$set_once"] == Obj(Base(o, "$set_once")[InitialPrefix + PropertyKey(st, x) := Str(lookup(x).value)])
    ensures st.setAsUserProperties ==>
      && "$set" in o' && o'["$set"].Obj?
      && FieldsReflect(Base(o0, "$set"), o'["$set"].fields, st, lookup, hits + {x}, "")
    ensures st.setAsInitialUserProperties ==>
      && "$set_once" in o' && o'["$set_once"].Obj?
      && FieldsReflect(Base(o0, "$set_once"), o'["$set_once"].fields, st, lookup, hits + {x}, InitialPrefix)
  {
    var key := PropertyKey(st, x);
    WrittenKeysMonotone(st, hits, hits + {x}, "");
    HoldersBefore(o0, o, st, lookup, hits);
    if st.setAsUserProperties {
      assert key == "" + PropertyKey(st, x);
      MirrorStep(o0, o, o', "$set", "", key, st, lookup, hits, x);
    }
    if st.setAsInitialUserProperties {
      MirrorStep(o0, o, o', "$set_once", InitialPrefix, InitialPrefix + key, st, lookup, hits, x);
    }
  }

  /**
   * The state after writing the hit `x`, described by the effect of one
   * write, reflects the hits so far and `x`.
   */
  lemma StepFromEffect(o0: Properties, o: Properties, o': Properties, st: Settings, lookup: Lookup,
                       hits: set<string>, x: string)
    requires lookup(x).Some?
    requires NoClash(o0, st, hits + {x})
    requires Reflects(o0, o, st, lookup, hits)
    requires PropertyKey(st, x) in o' && o'[PropertyKey(st, x)] == Str(lookup(x).value)
    requires st.setAsUserProperties ==>
      && "$set" in o'
      && o'["$set"] == Obj(Base(o, "$set")[PropertyKey(st, x) := Str(lookup(x).value)])
    requires st.setAsInitialUserProperties ==>
      && "$set_once" in o'
      && o'["$set_once"] == Obj(Base(o, "$set_once")[InitialPrefix + PropertyKey(st, x) := Str(lookup(x).value)])
    requires forall k :: !Exempt(st, PropertyKey(st, x), k) ==>
      (k in o' <==> k in o) && (k in o ==> o'[k] == o[k])
    ensures Reflects(o0, o', st, lookup, hits + {x})
  {
    MirrorsFromEffect(o0, o, o', st, lookup, hits, x);
    WrittenKeysMonotone(st, hits, hits + {x}, "");
    WrittenKeyOf(st, hits + {x}, x);
    HitKeysStep(o, o', st, lookup, hits, x);
    FrameStep(o0, o, o', st, hits, x);
  }

  /** A name with a value extends what has been written, and cannot throw. */
  lemma StepHit(o0: Properties, o: Properties, st: Settings, lookup: Lookup, hits: set<string>, x: string)
    requires lookup(x).Some?
    requires NoClash(o0, st, hits + {x})
    requires Reflects(o0, o, st, lookup, hits)
    ensures WriteName(o, st, x, lookup(x)).outcome == Returned
    ensures Reflects(o0, WriteName(o, st, x, lookup(x)).props, st, lookup, hits + {x})
  {
    WrittenKeysMonotone(st, hits, hits + {x}, "");
    WrittenKeyOf(st, hits + {x}, x);
    HoldersBefore(o0, o, st, lookup, hits);
    InjectEffect(o, st, x, lookup(x).value);
    StepFromEffect(o0, o, WriteName(o, st, x, lookup(x)).props, st, lookup, hits, x);
  }

  /** One more name, appended to a run that got through. */
  lemma EnrichSnoc(o0: Properties, st: Settings, lookup: Lookup, xs: seq<string>, x: string)
    requires Enrich(o0, st, lookup, xs).outcome == Returned
    ensures Enrich(o0, st, lookup, xs + [x])
         == WriteName(Enrich(o0, st, lookup, xs).props, st, x, lookup(x))
  {
  }

  /**
   * Under `NoClash`, the loop never throws and its result is the one
   * `Reflects` describes for the names that yield a value.
   */
  lemma {:induction false} EnrichCharacterised(o0: Properties, st: Settings, lookup: Lookup, names: seq<string>)
    requires NoClash(o0, st, Hits(lookup, names))
    ensures Enrich(o0, st, lookup, names).outcome == Returned
    ensures Reflects(o0, Enrich(o0, st, lookup, names).props, st, lookup, Hits(lookup, names))
    decreases |names|
  {
    if names == [] {
      assert Hits(lookup, names) == {};
      ReflectsEmpty(o0, st, lookup);
    } else {
      var xs := names[..|names| - 1];
      var x := names[|names| - 1];
      assert names == xs + [x];
      HitsSnoc(lookup, xs, x);
      WrittenKeysMonotone(st, Hits(lookup, xs), Hits(lookup, names), "");
      EnrichCharacterised(o0, st, lookup, xs);
      var r := Enrich(o0, st, lookup, xs);
      EnrichSnoc(o0, st, lookup, xs, x);
      if lookup(x).Some? {
        StepHit(o0, r.props, st, lookup, Hits(lookup, xs), x);
      }
    }
  }

  // ---------------------------------------------------------------------
  // Every run, including one that throws
  // ---------------------------------------------------------------------

  /** How a run may end: it returns, or a mirror that is switched on throws. */
  predicate PossibleOutcome(st: Settings, outcome: Outcome)
  {
    || outcome == Returned
    || (st.setAsUserProperties && outcome == NotAnObject("$set"))
    || (st.setAsInitialUserProperties && outcome == NotAnObject("$set_once"))
  }

  /**
   * One matched name, whether or not its mirrors throw, changes at most its
   * own key and the mirrors that are on, and can only throw at such a mirror.
   */
  lemma InjectFrame(o: Properties, st: Settings, name: string, v: string, k: string)
    requires !Exempt(st, PropertyKey(st, name), k)
    ensures var r := InjectValue(o, st, name, v);
      && PossibleOutcome(st, r.outcome)
      && (k in r.props <==> k in o)
      && (k in o ==> r.props[k] == o[k])
  {
  }

  /**
   * Every run, one that throws included, keeps each key that is neither
   * written for a name yielding a value nor a mirror that is on; and it can
   * only throw at a mirror that is on, after some name yielded a value.
   */
  lemma {:induction false} EnrichFrame(o0: Properties, st: Settings, lookup: Lookup,
                                       names: seq<string>, k: string)
    requires k !in WrittenKeys(st, Hits(lookup, names), "")
    requires !(st.setAsUserProperties && k == "$set")
    requires !(st.setAsInitialUserProperties && k == "$set_once")
    ensures var r := Enrich(o0, st, lookup, names);
      && PossibleOutcome(st, r.outcome)
      && (r.outcome != Returned ==> Hits(lookup, names) != {})
      && (k in r.props <==> k in o0)
      && (k in o0 ==> r.props[k] == o0[k])
    decreases |names|
  {
    if names != [] {
      var xs := names[..|names| - 1];
      var x := names[|names| - 1];
      assert names == xs + [x];
      HitsSnoc(lookup, xs, x);
      WrittenKeysMonotone(st, Hits(lookup, xs), Hits(lookup, names), "");
      EnrichFrame(o0, st, lookup, xs, k);
      var r := Enrich(o0, st, lookup, xs);
      if r.outcome == Returned && lookup(x).Some? {
        WrittenKeyOf(st, Hits(lookup, names), x);
        InjectFrame(r.props, st, x, lookup(x).value, k);
      }
    }
  }

  // ---------------------------------------------------------------------
  // Consequences
  // ---------------------------------------------------------------------

  /** The field maps `FieldsReflect` allows are unique. */
  lemma FieldsUnique(base: map<string, Value>, m1: map<string, Value>, m2: map<string, Value>,
                     st: Settings, lookup: Lookup, hits: set<string>, tag: string)
    requires FieldsReflect(base, m1, st, lookup, hits, tag)
    requires FieldsReflect(base, m2, st, lookup, hits, tag)
    ensures m1 == m2
  {
  }

  /** Two states that both reflect the hits agree at every key. */
  lemma ReflectsAgreeAt(o0: Properties, a: Properties, b: Properties, st: Settings, lookup: Lookup,
                        hits: set<string>, k: string)
    requires Reflects(o0, a, st, lookup, hits)
    requires Reflects(o0, b, st, lookup, hits)
    ensures (k in a <==> k in b) && (k in a ==> a[k] == b[k])
  {
    if k in WrittenKeys(st, hits, "") {
      var n :| n in hits && k == "" + PropertyKey(st, n);
      assert k == PropertyKey(st, n);
    } else if st.setAsUserProperties && hits != {} && k == "$set" {
      FieldsUnique(Base(o0, "$set"), a["$set"].fields, b["$set"].fields, st, lookup, hits, "");
    } else if st.setAsInitialUserProperties && hits != {} && k == "$set_once" {
      FieldsUnique(Base(o0, "$set_once"), a["$set_once"].fields, b["$set_once"].fields,
                   st, lookup, hits, InitialPrefix);
    }
  }

  /** `Reflects` determines the properties completely. */
  lemma ReflectsUnique(o0: Properties, a: Properties, b: Properties, st: Settings, lookup: Lookup,
                       hits: set<string>)
    requires Reflects(o0, a, st, lookup, hits)
    requires Reflects(o0, b, st, lookup, hits)
    ensures a == b
  {
    forall k ensures (k in a <==> k in b) && (k in a ==> a[k] == b[k]) {
      ReflectsAgreeAt(o0, a, b, st, lookup, hits, k);
    }
  }

  /**
   * The order of the configured names, and repetitions among them, do not
   * change the result, so the insertion order of the source's `Set` does
   * not matter.
   */
  lemma OrderIrrelevant(o0: Properties, st: Settings, lookup: Lookup, a: seq<string>, b: seq<string>)
    requires forall n :: n in a <==> n in b
    requires NoClash(o0, st, Hits(lookup, a))
    ensures Enrich(o0, st, lookup, a) == Enrich(o0, st, lookup, b)
  {
    assert Hits(lookup, a) == Hits(lookup, b);
    EnrichCharacterised(o0, st, lookup, a);
    EnrichCharacterised(o0, st, lookup, b);
    ReflectsUnique(o0, Enrich(o0, st, lookup, a).props, Enrich(o0, st, lookup, b).props,
                   st, lookup, Hits(lookup, a));
  }

  /**
   * `processEvent` on an event with a parsable `$current_url`: under
   * `NoClash` it returns the event, whose properties are what `Reflects`
   * describes for the names that yield a value in the URL's query.
   */
  lemma ProcessCharacterised(props: Option<Properties>, st: Settings, names: seq<string>,
                             parseUrl: Value -> Option<Query>)
    requires props.Some? && TruthyAt(props.value, "$current_url")
    requires parseUrl(props.value["$current_url"]).Some?
    requires NoClash(props.value, st, Hits(FoundIn(st, parseUrl(props.value["$current_url"]).value), names))
    ensures var lookup := FoundIn(st, parseUrl(props.value["$current_url"]).value);
      && Process(props, st, names, parseUrl).1 == Returned
      && Process(props, st, names, parseUrl).0.Some?
      && Reflects(props.value, Process(props, st, names, parseUrl).0.value, st, lookup, Hits(lookup, names))
  {
    EnrichCharacterised(props.value, st, FoundIn(st, parseUrl(props.value["$current_url"]).value), names);
  }

  /**
   * `processEvent` on an event with a parsable `$current_url`, whether it
   * returns or throws: a key that is neither written for a name yielding a
   * value nor a mirror that is on keeps its old value, or stays absent, and
   * only a mirror that is on can throw.
   */
  lemma ProcessFrame(props: Option<Properties>, st: Settings, names: seq<string>,
                     parseUrl: Value -> Option<Query>, k: string)
    requires props.Some? && TruthyAt(props.value, "$current_url")
    requires parseUrl(props.value["$current_url"]).Some?
    requires k !in WrittenKeys(st, Hits(FoundIn(st, parseUrl(props.value["$current_url"]).value), names), "")
    requires !(st.setAsUserProperties && k == "$set")
    requires !(st.setAsInitialUserProperties && k == "$set_once")
    ensures var (p, outcome) := Process(props, st, names, parseUrl);
      && PossibleOutcome(st, outcome)
      && p.Some?
      && (k in p.value <==> k in props.value)
      && (k in props.value ==> p.value[k] == props.value[k])
  {
    EnrichFrame(props.value, st, FoundIn(st, parseUrl(props.value["$current_url"]).value), names, k);
  }

  // ---------------------------------------------------------------------
  // Examples
  // ---------------------------------------------------------------------

  /** Under `ignoreCase` the lookup ignores case, but the key written keeps the configured spelling. */
  lemma ConfiguredCaseKey()
    ensures var st := Settings(true, false, false, "", "");
      Enrich(map[], st, FoundIn(st, [("source", "bing")]), ["Source"]).props == map["Source" := Str("bing")]
  {
    var st := Settings(true, false, false, "", "");
    CaseInsensitiveHit();
    assert ["Source"][..0] == [];
    assert PropertyKey(st, "Source") == "Source";
  }

  /**
   * A truthy `$set` that is not an object makes the assignment into it throw
   * after the property itself and the new holder have been written.
   */
  lemma PrimitiveSetThrows()
    ensures var st := Settings(false, false, true, "", "");
      Enrich(map["$set" := Str("x")], st, FoundIn(st, [("a", "1")]), ["a"])
      == Run(map["$set" := Str("x"), "a" := Str("1")], NotAnObject("$set"))
  {
    var st := Settings(false, false, true, "", "");
    assert Found(st, [("a", "1")], "a") == Some("1");
    assert ["a"][..0] == [];
    assert PropertyKey(st, "a") == "a";
  }

  /** A configured name whose key is `$set` overwrites the holder with a string, so mirroring throws. */
  lemma SetKeyThrows()
    ensures var st := Settings(false, false, true, "", "");
      Enrich(map[], st, FoundIn(st, [("$set", "1")]), ["$set"])
      == Run(map["$set" := Str("1")], NotAnObject("$set"))
  {
    var st := Settings(false, false, true, "", "");
    assert Found(st, [("$set", "1")], "$set") == Some("1");
    assert ["$set"][..0] == [];
    assert PropertyKey(st, "$set") == "$set";
  }

  /** The clashing name first: the loop throws before `a` is looked at. */
  lemma ClashFirst()
    ensures var st := Settings(false, false, true, "", "");
      Enrich(map[], st, FoundIn(st, [("$set", "1"), ("a", "2")]), ["$set", "a"])
      == Run(map["$set" := Str("1")], NotAnObject("$set"))
  {
    var st := Settings(false, false, true, "", "");
    var lookup := FoundIn(st, [("$set", "1"), ("a", "2")]);
    assert lookup("$set") == Some("1");
    assert PropertyKey(st, "$set") == "$set";
    assert ["$set", "a"][..1] == ["$set"] && ["$set"][..0] == [];
    EnrichStopsAtError(map[], st, lookup, ["$set", "a"], 1);
  }

  /** The ordinary name alone: its property and its mirror are written. */
  lemma OrdinaryFirst()
    ensures var st := Settings(false, false, true, "", "");
      Enrich(map[], st, FoundIn(st, [("$set", "1"), ("a", "2")]), ["a"])
      == Run(map["a" := Str("2"), "$set" := Obj(map["a" := Str("2")])], Returned)
  {
    var st := Settings(false, false, true, "", "");
    assert FoundIn(st, [("$set", "1"), ("a", "2")])("a") == Some("2");
    assert PropertyKey(st, "a") == "a";
    assert ["a"][..0] == [];
  }

  /** The clashing name last: `a` and its mirror are written, then the clash throws. */
  lemma ClashLast()
    ensures var st := Settings(false, false, true, "", "");
      Enrich(map[], st, FoundIn(st, [("$set", "1"), ("a", "2")]), ["a", "$set"])
      == Run(map["a" := Str("2"), "$set" := Str("1")], NotAnObject("$set"))
  {
    var st := Settings(false, false, true, "", "");
    var lookup := FoundIn(st, [("$set", "1"), ("a", "2")]);
    OrdinaryFirst();
    assert ["a", "$set"][..1] == ["a"];
    var before := map["a" := Str("2"), "$set" := Obj(map["a" := Str("2")])];
    assert lookup("$set") == Some("1");
    assert PropertyKey(st, "$set") == "$set";
    assert before["$set" := Str("1")] == map["a" := Str("2"), "$set" := Str("1")];
  }

  /**
   * Without `NoClash` the order of the names can matter: both orders of a
   * clashing name and an ordinary one throw, but they leave different
   * properties behind.
   */
  lemma OrderMattersOnClash()
    ensures var st := Settings(false, false, true, "", "");
      var lookup := FoundIn(st, [("$set", "1"), ("a", "2")]);
      Enrich(map[], st, lookup, ["$set", "a"]) != Enrich(map[], st, lookup, ["a", "$set"])
  {
    ClashFirst();
    ClashLast();
    assert "a" !in map["$set" := Str("1")];
  }
}
