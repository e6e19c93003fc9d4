/** The colour formatter: it validates the style rule of a record's level
    against the palettes and wraps the level tag "[LEVEL]" in SGR control
    sequences before the plain line that the wrapped line formatter produced. */
module ColoredConsole {
  import opened Wrappers
  import opened Palette
  import opened StyleRules
  import Levels

  /** The two exceptions `format` throws: a level without a rule (a runtime
      error), and a colour or option name outside the palettes (an invalid
      argument, naming the offending value and the valid names). */
  datatype Error =
    | NoColorMap(level: int)
    | InvalidForeground(color: string, expected: seq<string>)
    | InvalidBackground(color: string, expected: seq<string>)
    | InvalidOption(option: string, expected: seq<string>)

  /** The two fields of a log record that the formatter reads itself. */
  datatype LogRecord = LogRecord(level: int, levelName: string)

  /** Which palette a background colour's codes are read from once the
      colour has passed validation against the background palette. */
  datatype Emission = ForegroundTableForBackground | BackgroundTable

  function BackgroundEmitTable(emission: Emission): (table: map<string, SgrPair>)
    ensures table.Keys == BackgroundColors.Keys
  {
    match emission
    case ForegroundTableForBackground => ForegroundColors
    case BackgroundTable => BackgroundColors
  }

  /** The line template used when the caller gives none. */
  const DefaultLineFormat: string := "%channel%: %message% [%datetime%] \n"

  // ---------------------------------------------------------------------
  // Validators

  /** A null colour passes; a named one passes exactly when it is a
      foreground palette key. */
  function CheckForeground(color: Option<string>): (r: Outcome<Error>)
    ensures r == Pass <==> color == None || color.value in ForegroundColors
    ensures r.Fail? ==> r.error == InvalidForeground(color.value, ColorNames)
  {
    match color
    case None => Pass
    case Some(c) => if c in ForegroundColors then Pass else Fail(InvalidForeground(c, ColorNames))
  }

  /** A null colour passes; a named one passes exactly when it is a
      background palette key. */
  function CheckBackground(color: Option<string>): (r: Outcome<Error>)
    ensures r == Pass <==> color == None || color.value in BackgroundColors
    ensures r.Fail? ==> r.error == InvalidBackground(color.value, ColorNames)
  {
    match color
    case None => Pass
    case Some(c) => if c in BackgroundColors then Pass else Fail(InvalidBackground(c, ColorNames))
  }

  function CheckOption(option: string): (r: Outcome<Error>)
    ensures r == Pass <==> option in Options
    ensures r.Fail? ==> r.error == InvalidOption(option, OptionNames)
  {
    if option in Options then Pass else Fail(InvalidOption(option, OptionNames))
  }

  /** The outcome of checking the options one after another: the first
      invalid option is the one reported. */
  function OptionsOutcome(options: seq<string>): (r: Outcome<Error>)
    ensures r == Pass <==> forall k :: 0 <= k < |options| ==> options[k] in Options
  {
    if |options| == 0 then Pass
    else match CheckOption(options[0])
      case Fail(e) => Fail(e)
      case Pass => OptionsOutcome(options[1..])
  }

  /** When options[k] is the first option outside the palette, that option
      is the one the check reports. */
  lemma {:induction false} OptionsOutcomeReportsFirstInvalid(options: seq<string>, k: nat)
    requires k < |options| && options[k] !in Options
    requires forall j :: 0 <= j < k ==> options[j] in Options
    ensures OptionsOutcome(options) == Fail(InvalidOption(options[k], OptionNames))
  {
    if k > 0 {
      OptionsOutcomeReportsFirstInvalid(options[1..], k - 1);
    }
  }

  /** The loop of the source's option check, stopping at the first invalid
      option. */
  method CheckOptions(options: seq<string>) returns (r: Outcome<Error>)
    ensures r == OptionsOutcome(options)
  {
    var i := 0;
    while i < |options|
      invariant i <= |options|
      invariant forall j :: 0 <= j < i ==> options[j] in Options
    {
      var check := CheckOption(options[i]);
      if check.Fail? {
        OptionsOutcomeReportsFirstInvalid(options, i);
        return check;
      }
      i := i + 1;
    }
    return Pass;
  }

  // ---------------------------------------------------------------------
  // Specification of format

  /** The code pairs of options that all passed validation, in order. */
  function OptionPairs(options: seq<string>): (ps: seq<SgrPair>)
    requires forall k :: 0 <= k < |options| ==> options[k] in Options
    ensures |ps| == |options|
  {
    seq(|options|, k requires 0 <= k < |options| => Options[options[k]])
  }

  /** Every colour the rule names is in its palette and every option is in
      the options palette; a null colour is always acceptable. */
  predicate RuleValid(rule: StyleRule) {
    (rule.foreground.Some? ==> rule.foreground.value in ForegroundColors) &&
    (rule.background.Some? ==> rule.background.value in BackgroundColors) &&
    (forall k :: 0 <= k < |rule.options| ==> rule.options[k] in Options)
  }

  /** The code pairs a rule contributes: its foreground colour, its
      background colour, then one pair per option; or the first validation
      error, checking foreground, then background, then options. */
  function RulePairs(rule: StyleRule, emission: Emission): (r: Result<seq<SgrPair>, Error>)
    ensures r.Ok? <==> RuleValid(rule)
  {
    match CheckForeground(rule.foreground)
    case Fail(e) => Err(e)
    case Pass =>
      match CheckBackground(rule.background)
      case Fail(e) => Err(e)
      case Pass =>
        match OptionsOutcome(rule.options)
        case Fail(e) => Err(e)
        case Pass =>
          var fg := if rule.foreground.Some? then [ForegroundColors[rule.foreground.value]] else [];
          var bg := if rule.background.Some? then [BackgroundEmitTable(emission)[rule.background.value]] else [];
          Ok(fg + bg + OptionPairs(rule.options))
  }

  function SetCodes(ps: seq<SgrPair>): (codes: seq<nat>)
    ensures |codes| == |ps|
  {
    seq(|ps|, k requires 0 <= k < |ps| => ps[k].setCode)
  }

  function UnsetCodes(ps: seq<SgrPair>): (codes: seq<nat>)
    ensures |codes| == |ps|
  {
    seq(|ps|, k requires 0 <= k < |ps| => ps[k].unsetCode)
  }

  /** The level tag "[LEVEL]". */
  function LevelTag(levelName: string): (tag: string)
    ensures |tag| == |levelName| + 2 && tag[0] == '[' && tag[|tag| - 1] == ']'
    ensures tag[1..|tag| - 1] == levelName
  {
    "[" + levelName + "]"
  }

  /** A styled line: the level tag between the sequence that sets the codes
      and the sequence that unsets them, one space, then the plain line. */
  function StyledLine(setCodes: seq<nat>, unsetCodes: seq<nat>, levelName: string, plainLine: string): string {
    Csi + Join(setCodes) + "m" + LevelTag(levelName) + Csi + Join(unsetCodes) + "m " + plainLine
  }

  /** What `format` returns for a record whose plain rendering is
      `plainLine`, reading background codes as `emission` says. */
  function FormatWith(emission: Emission, colorsMap: ColorsMap, record: LogRecord, plainLine: string): (r: Result<string, Error>)
    ensures record.level !in colorsMap ==> r == Err(NoColorMap(record.level))
    ensures r.Ok? <==> record.level in colorsMap && RuleValid(colorsMap[record.level])
    ensures r.Ok? ==> |r.value| >= |plainLine| && r.value[|r.value| - |plainLine|..] == plainLine
  {
    if record.level !in colorsMap then Err(NoColorMap(record.level))
    else match RulePairs(colorsMap[record.level], emission)
      case Err(e) => Err(e)
      case Ok(ps) =>
        if |ps| == 0 then Ok(plainLine)
        else Ok(StyledLine(SetCodes(ps), UnsetCodes(ps), record.levelName, plainLine))
  }

  /** `format` with background codes from the background palette. It fails
      exactly when the level has no rule or the rule is invalid, and a line
      it returns ends with the plain line. */
  function FormatLine(colorsMap: ColorsMap, record: LogRecord, plainLine: string): (r: Result<string, Error>)
    ensures record.level !in colorsMap ==> r == Err(NoColorMap(record.level))
    ensures r.Ok? <==> record.level in colorsMap && RuleValid(colorsMap[record.level])
    ensures r.Ok? ==> |r.value| >= |plainLine| && r.value[|r.value| - |plainLine|..] == plainLine
  {
    FormatWith(BackgroundTable, colorsMap, record, plainLine)
  }

  /** `format` as written: background codes from the foreground palette.
      It fails on exactly the inputs the corrected `format` fails on, with
      the same error, and a line it returns ends with the plain line. */
  function FormatLineAsWritten(colorsMap: ColorsMap, record: LogRecord, plainLine: string): (r: Result<string, Error>)
    ensures r.Err? <==> FormatLine(colorsMap, record, plainLine).Err?
    ensures r.Err? ==> r == FormatLine(colorsMap, record, plainLine)
    ensures r.Ok? ==> |r.value| >= |plainLine| && r.value[|r.value| - |plainLine|..] == plainLine
  {
    FormatWith(ForegroundTableForBackground, colorsMap, record, plainLine)
  }

  lemma CodesAppend(ps: seq<SgrPair>, p: SgrPair)
    ensures SetCodes(ps + [p]) == SetCodes(ps) + [p.setCode]
    ensures UnsetCodes(ps + [p]) == UnsetCodes(ps) + [p.unsetCode]
  {
    assert SetCodes(ps + [p]) == SetCodes(ps) + [p.setCode];
    assert UnsetCodes(ps + [p]) == UnsetCodes(ps) + [p.unsetCode];
  }

  /** The pairs of a rule that passes validation, in emission order. */
  lemma RulePairsFromParts(rule: StyleRule, emission: Emission, fgPart: seq<SgrPair>, bgPart: seq<SgrPair>)
    requires rule.foreground.Some? ==> rule.foreground.value in ForegroundColors
    requires rule.background.Some? ==> rule.background.value in BackgroundColors
    requires forall k :: 0 <= k < |rule.options| ==> rule.options[k] in Options
    requires fgPart == if rule.foreground.Some? then [ForegroundColors[rule.foreground.value]] else []
    requires bgPart == if rule.background.Some? then [BackgroundEmitTable(emission)[rule.background.value]] else []
    ensures RulePairs(rule, emission) == Ok(fgPart + bgPart + OptionPairs(rule.options))
  {
  }

  /** `format` once the rule's pairs are known. */
  lemma FormatFromPairs(emission: Emission, colorsMap: ColorsMap, record: LogRecord, plainLine: string, ps: seq<SgrPair>)
    requires record.level in colorsMap && RulePairs(colorsMap[record.level], emission) == Ok(ps)
    ensures FormatWith(emission, colorsMap, record, plainLine) ==
      if |ps| == 0 then Ok(plainLine)
      else Ok(StyledLine(SetCodes(ps), UnsetCodes(ps), record.levelName, plainLine))
  {
  }

  /** `format` passes on the rule's validation error. */
  lemma FormatFails(colorsMap: ColorsMap, record: LogRecord, plainLine: string)
    requires record.level in colorsMap && RulePairs(colorsMap[record.level], BackgroundTable).Err?
    ensures FormatLine(colorsMap, record, plainLine) == Err(RulePairs(colorsMap[record.level], BackgroundTable).error)
  {
  }

  lemma CodesConcat(ps: seq<SgrPair>, qs: seq<SgrPair>)
    ensures SetCodes(ps + qs) == SetCodes(ps) + SetCodes(qs)
    ensures UnsetCodes(ps + qs) == UnsetCodes(ps) + UnsetCodes(qs)
  {
    assert SetCodes(ps + qs) == SetCodes(ps) + SetCodes(qs);
    assert UnsetCodes(ps + qs) == UnsetCodes(ps) + UnsetCodes(qs);
  }

  /** The `foreach` over validated options: appends each option's set code
      and unset code, in order, to the two lists. */
  method AppendOptionCodes(setCodes: seq<nat>, unsetCodes: seq<nat>, options: seq<string>)
    returns (setCodes': seq<nat>, unsetCodes': seq<nat>)
    requires forall k :: 0 <= k < |options| ==> options[k] in Options
    ensures setCodes' == setCodes + SetCodes(OptionPairs(options))
    ensures unsetCodes' == unsetCodes + UnsetCodes(OptionPairs(options))
  {
    setCodes', unsetCodes' := setCodes, unsetCodes;
    var i := 0;
    while i < |options|
      invariant i <= |options|
      invariant setCodes' == setCodes + SetCodes(OptionPairs(options)[..i])
      invariant unsetCodes' == unsetCodes + UnsetCodes(OptionPairs(options)[..i])
    {
      var opt := Options[options[i]];
      CodesAppend(OptionPairs(options)[..i], opt);
      assert OptionPairs(options)[..i + 1] == OptionPairs(options)[..i] + [opt];
      setCodes' := setCodes' + [opt.setCode];
      unsetCodes' := unsetCodes' + [opt.unsetCode];
      i := i + 1;
    }
    assert OptionPairs(options)[..i] == OptionPairs(options);
  }

  // ---------------------------------------------------------------------
  // The formatter object

  class ColoredConsoleFormatter {
    /** The colour map, fixed by the constructor. */
    const colorsMap: ColorsMap
    /** What is handed to the wrapped line formatter's constructor. */
    const lineFormat: string
    const dateFormat: Option<string>
    const allowInlineLineBreaks: bool

    constructor (colorsMap: Option<ColorsMap>, format: Option<string>, dateFormat: Option<string>, allowInlineLineBreaks: bool)
      ensures this.colorsMap == match colorsMap
        case None => DefaultColorsMap
        case Some(m) => MergeColorsMap(DefaultColorsMap, m)
      ensures this.lineFormat == match format
        case None => DefaultLineFormat
        case Some(f) => f
      ensures this.dateFormat == dateFormat && this.allowInlineLineBreaks == allowInlineLineBreaks
    {
      var merged := DefaultColorsMap;
      if colorsMap.Some? {
        merged := MergeColorsMap(merged, colorsMap.value);
      }
      this.colorsMap := merged;
      var lineFormat := if format.None? then DefaultLineFormat else format.value;
      this.lineFormat := lineFormat;
      this.dateFormat := dateFormat;
      this.allowInlineLineBreaks := allowInlineLineBreaks;
    }

    /** Formats a record whose plain rendering by the line formatter is
        `plainLine`: the set and unset code lists are built by appending,
        foreground, background, then each option in turn. */
    method Format(record: LogRecord, plainLine: string) returns (r: Result<string, Error>)
      ensures r == FormatLine(colorsMap, record, plainLine)
    {
      if record.level !in colorsMap {
        return Err(NoColorMap(record.level));
      }
      var colors := colorsMap[record.level];
      var setCodes: seq<nat> := [];
      var unsetCodes: seq<nat> := [];
      ghost var fgPart: seq<SgrPair> := [];
      ghost var bgPart: seq<SgrPair> := [];

      if colors.foreground.Some? {
        var check := CheckForeground(colors.foreground);
        if check.Fail? {
          FormatFails(colorsMap, record, plainLine);
          return Err(check.error);
        }
        var pair := ForegroundColors[colors.foreground.value];
        setCodes := setCodes + [pair.setCode];
        unsetCodes := unsetCodes + [pair.unsetCode];
        fgPart := [pair];
      }

      if colors.background.Some? {
        var check := CheckBackground(colors.background);
        if check.Fail? {
          FormatFails(colorsMap, record, plainLine);
          return Err(check.error);
        }
        var pair := BackgroundColors[colors.background.value];
        CodesAppend(fgPart, pair);
        setCodes := setCodes + [pair.setCode];
        unsetCodes := unsetCodes + [pair.unsetCode];
        bgPart := [pair];
      }
      assert setCodes == SetCodes(fgPart + bgPart) && unsetCodes == UnsetCodes(fgPart + bgPart);

      ghost var base := fgPart + bgPart;
      ghost var pairs := base;
      var options := colors.options;
      if |options| > 0 {
        var check := CheckOptions(options);
        if check.Fail? {
          FormatFails(colorsMap, record, plainLine);
          return Err(check.error);
        }
        setCodes, unsetCodes := AppendOptionCodes(setCodes, unsetCodes, options);
        pairs := base + OptionPairs(options);
        CodesConcat(base, OptionPairs(options));
      } else {
        assert OptionPairs(options) == [];
        assert pairs == base + OptionPairs(options);
      }
      RulePairsFromParts(colors, BackgroundTable, fgPart, bgPart);
      FormatFromPairs(BackgroundTable, colorsMap, record, plainLine, pairs);

      if |setCodes| == 0 {
        return Ok(plainLine);
      }
      return Ok(StyledLine(setCodes, unsetCodes, record.levelName, plainLine));
    }
  }
}
