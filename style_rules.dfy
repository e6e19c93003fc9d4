/** Style rules, the built-in colour map keyed by severity level, and the
    two ways of merging a caller's map over it. */
module StyleRules {
  import opened Wrappers
  import Levels

  /** How one level is styled: an optional foreground colour name, an
      optional background colour name and a list of option names that is
      emitted in order. All three keys are always present. */
  datatype StyleRule = StyleRule(foreground: Option<string>, background: Option<string>, options: seq<string>)

  /** A colour map: a style rule per severity level. */
  type ColorsMap = map<int, StyleRule>

  /** The built-in colour map. */
  const DefaultColorsMap: ColorsMap := map[
    Levels.Debug := StyleRule(Some("white"), Some("cyan"), []),
    Levels.Info := StyleRule(Some("green"), None, []),
    Levels.Notice := StyleRule(Some("yellow"), None, []),
    Levels.Warning := StyleRule(Some("yellow"), None, ["bold"]),
    Levels.Error := StyleRule(Some("white"), Some("red"), []),
    Levels.Critical := StyleRule(Some("white"), Some("red"), ["bold"]),
    Levels.Alert := StyleRule(Some("white"), Some("red"), ["bold"]),
    Levels.Emergency := StyleRule(Some("white"), Some("red"), ["underscore"])
  ]

  /** The built-in map covers exactly the eight levels. */
  lemma DefaultColorsMapCoversLevels()
    ensures forall l :: l in DefaultColorsMap <==> l in Levels.All
  {
  }

  /** A PHP array of rules: its (key, rule) entries in insertion order. */
  type ColorsArray = seq<(int, StyleRule)>

  /** The built-in colour map as the PHP array it is declared as, entry by
      entry in declaration order. */
  const DefaultColorsArray: ColorsArray := [
    (Levels.Debug, StyleRule(Some("white"), Some("cyan"), [])),
    (Levels.Info, StyleRule(Some("green"), None, [])),
    (Levels.Notice, StyleRule(Some("yellow"), None, [])),
    (Levels.Warning, StyleRule(Some("yellow"), None, ["bold"])),
    (Levels.Error, StyleRule(Some("white"), Some("red"), [])),
    (Levels.Critical, StyleRule(Some("white"), Some("red"), ["bold"])),
    (Levels.Alert, StyleRule(Some("white"), Some("red"), ["bold"])),
    (Levels.Emergency, StyleRule(Some("white"), Some("red"), ["underscore"]))
  ]

  /** The declared array lists the eight levels from least to most severe,
      each once, and gives every level the rule the map gives it. */
  lemma DefaultColorsArrayAgreesWithMap()
    ensures |DefaultColorsArray| == |Levels.All|
    ensures forall i :: 0 <= i < |DefaultColorsArray| ==>
      DefaultColorsArray[i].0 == Levels.All[i] &&
      DefaultColorsArray[i].0 in DefaultColorsMap &&
      DefaultColorsMap[DefaultColorsArray[i].0] == DefaultColorsArray[i].1
    ensures forall l :: l in DefaultColorsMap <==> exists i :: 0 <= i < |DefaultColorsArray| && DefaultColorsArray[i].0 == l
  {
    forall l | l in DefaultColorsMap
      ensures exists i :: 0 <= i < |DefaultColorsArray| && DefaultColorsArray[i].0 == l
    {
      DefaultColorsMapCoversLevels();
      assert l in Levels.All;
      var i :| 0 <= i < |Levels.All| && Levels.All[i] == l;
      assert DefaultColorsArray[i].0 == l;
    }
  }

  /** The intended constructor merge: each level the caller's map names gets
      the caller's rule, every other level keeps its rule from `defaults`. */
  function MergeColorsMap(defaults: ColorsMap, overrides: ColorsMap): (merged: ColorsMap)
    ensures merged.Keys == defaults.Keys + overrides.Keys
    ensures forall l :: l in overrides ==> merged[l] == overrides[l]
    ensures forall l :: l in defaults && l !in overrides ==> merged[l] == defaults[l]
  {
    defaults + overrides
  }

  /** The constructor merge as written, PHP's `array_merge` applied to two
      arrays with integer keys: the keys are dropped and the rules of both
      arrays, in order, are renumbered 0, 1, 2, ... */
  function ArrayMergeAsWritten(first: ColorsArray, second: ColorsArray): (merged: ColorsMap)
    ensures forall k :: k in merged <==> 0 <= k < |first| + |second|
    ensures forall k :: 0 <= k < |first| ==> merged[k] == first[k].1
    ensures forall k :: |first| <= k < |first| + |second| ==> merged[k] == second[k - |first|].1
  {
    map k | 0 <= k < |first| + |second| :: (first + second)[k].1
  }

  /** As written, merging any caller array of at most 92 rules over the
      built-in array leaves no rule under any Monolog level: the renumbered
      keys 0 .. 7 + |second| all lie below the smallest level, 100. */
  lemma {:induction false} ArrayMergeAsWrittenLosesLevels(second: ColorsArray)
    requires |second| <= 92
    ensures forall l :: l in Levels.All ==> l !in ArrayMergeAsWritten(DefaultColorsArray, second)
  {
    var merged := ArrayMergeAsWritten(DefaultColorsArray, second);
    forall l | l in Levels.All ensures l !in merged {
      assert l >= Levels.Debug;
    }
  }

  /** As intended, a caller map naming only ERROR changes the ERROR rule and
      leaves the other seven built-in rules as they are. */
  lemma {:induction false} MergeOnlyErrorKeepsOthers(rule: StyleRule)
    ensures var merged := MergeColorsMap(DefaultColorsMap, map[Levels.Error := rule]);
      merged.Keys == DefaultColorsMap.Keys &&
      merged[Levels.Error] == rule &&
      forall l :: l in Levels.All && l != Levels.Error ==> merged[l] == DefaultColorsMap[l]
  {
    DefaultColorsMapCoversLevels();
  }
}
