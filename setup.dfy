/**
 * The configuration normaliser: `setupPlugin` turns the plugin's
 * string-valued configuration into the typed settings kept in the plugin's
 * `global` object for every later event.
 */
module Setup {
  import opened Strings

  /**
   * The configuration as the host supplies it: every field is a string.
   * A field the host leaves out behaves as follows in the source: a flag
   * compares unequal to `"true"`, and a missing `parameters` is falsy like
   * the empty string, so both are modelled by strings other than `"true"`
   * and by `""` respectively.
   */
  datatype PluginConfig = PluginConfig(
    ignoreCase: string,
    prefix: string,
    setAsInitialUserProperties: string,
    setAsUserProperties: string,
    suffix: string,
    parameters: string)

  /**
   * `new Set(raw ? raw.split(',').map(p => p.trim()) : null)`, listed in the
   * set's iteration order: the trimmed comma-separated pieces, first
   * occurrences only. The empty string gives no names at all.
   */
  function ParameterNames(raw: string): (names: seq<string>)
    ensures raw == "" ==> names == []
    ensures NoDuplicates(names)
  {
    if raw == "" then [] else DistinctTrims(Split(raw, ','))
  }

  /** `new Set(pieces.map(p => p.trim()))`: the trims of the pieces, each once. */
  function DistinctTrims(pieces: seq<string>): (names: seq<string>)
    ensures NoDuplicates(names)
    ensures forall x :: x in names <==> exists i :: 0 <= i < |pieces| && Trim(pieces[i]) == x
  {
    var names := Dedup(TrimAll(pieces));
    assert forall x :: x in names <==> x in TrimAll(pieces);
    names
  }

  /**
   * For a non-empty list, the names are exactly the trimmed pieces of the
   * comma-separated list.
   */
  lemma ParameterNamesCharacterised(raw: string, x: string)
    requires raw != ""
    ensures x in ParameterNames(raw) <==>
      exists i :: 0 <= i < |Split(raw, ',')| && Trim(Split(raw, ',')[i]) == x
  {
    var pieces := Split(raw, ',');
    assert ParameterNames(raw) == DistinctTrims(pieces);
    if x in ParameterNames(raw) {
      var i :| 0 <= i < |pieces| && Trim(pieces[i]) == x;
      assert 0 <= i < |Split(raw, ',')| && Trim(Split(raw, ',')[i]) == x;
    }
  }

  /** Every name is already trimmed. */
  lemma ParameterNamesTrimmed(raw: string)
    ensures forall x :: x in ParameterNames(raw) ==> Trim(x) == x
  {
    if raw != "" {
      var pieces := Split(raw, ',');
      var trimmed := TrimAll(pieces);
      assert ParameterNames(raw) == Dedup(trimmed);
      forall x | x in Dedup(trimmed) ensures Trim(x) == x {
        assert x in trimmed;
        var i :| 0 <= i < |trimmed| && trimmed[i] == x;
        TrimIdempotent(pieces[i]);
      }
    }
  }

  /** A lone comma splits into two empty pieces, which collapse to one. */
  lemma CommaGivesEmptyName()
    ensures ParameterNames(",") == [""]
  {
    assert ","[1..] == "";
    assert Split(",", ',') == ["", ""];
    assert TrimAll(["", ""]) == ["", ""];
    assert ["", ""][..1] == [""];
    assert [""][..0] == [];
  }

  /** A blank piece is one piece that trims to `""`. */
  lemma BlankGivesEmptyName()
    ensures ParameterNames(" ") == [""]
  {
    SplitOtherFirst(' ', "", ',');
    assert [' '] + "" == " ";
    assert Split(" ", ',') == [" "];
    assert TrimStart(" ") == "";
    assert [""][..0] == [];
  }

  /**
   * The source keeps empty names: a doubled or trailing comma, or a piece
   * made only of white space, yields the name `""`.
   */
  lemma EmptyPieceGivesEmptyName()
    ensures ParameterNames(",") == [""]
    ensures ParameterNames(" ") == [""]
  {
    CommaGivesEmptyName();
    BlankGivesEmptyName();
  }

  /** `value === 'true'`: only the exact string `"true"` switches a flag on. */
  predicate IsTrue(value: string)
  {
    value == "true"
  }

  /** The plugin's `global` slot: the settings `setupPlugin` stores. */
  class PluginGlobal {
    var ignoreCase: bool
    var setAsInitialUserProperties: bool
    var setAsUserProperties: bool
    var parameters: seq<string>

    /**
     * `setupPlugin`: each flag is set exactly when its configuration string
     * is `"true"`, and the names come from the comma-separated list.
     */
    method SetupPlugin(config: PluginConfig)
      modifies this
      ensures ignoreCase == IsTrue(config.ignoreCase)
      ensures setAsInitialUserProperties == IsTrue(config.setAsInitialUserProperties)
      ensures setAsUserProperties == IsTrue(config.setAsUserProperties)
      ensures parameters == ParameterNames(config.parameters)
      ensures NoDuplicates(parameters)
      ensures forall x :: x in parameters ==> Trim(x) == x
    {
      ignoreCase := IsTrue(config.ignoreCase);
      setAsInitialUserProperties := IsTrue(config.setAsInitialUserProperties);
      setAsUserProperties := IsTrue(config.setAsUserProperties);
      parameters := ParameterNames(config.parameters);
      ParameterNamesTrimmed(config.parameters);
    }
  }
}
