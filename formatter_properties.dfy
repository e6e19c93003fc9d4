/** What `format` promises: the order and pairing of the codes, the exact
    shape of a styled line, identity on unstyled rules, its error cases,
    and the consequences of the two constructor and background variants. */
module FormatterProperties {
  import opened Wrappers
  import opened Palette
  import opened StyleRules
  import opened ColoredConsole
  import Levels

  /** The number of attributes a rule names: one per colour, one per option. */
  function AttributeCount(rule: StyleRule): nat {
    (if rule.foreground.Some? then 1 else 0) + (if rule.background.Some? then 1 else 0) + |rule.options|
  }

  /** A rule with no foreground, no background and no options. */
  predicate Unstyled(rule: StyleRule) {
    rule.foreground == None && rule.background == None && rule.options == []
  }

  // ---------------------------------------------------------------------
  // Validation

  /** An unknown foreground fails the whole call, before anything else is
      checked; the error names the colour and lists the eight colour names. */
  lemma {:induction false} FormatRejectsUnknownForeground(emission: Emission, colorsMap: ColorsMap, record: LogRecord, plainLine: string)
    requires record.level in colorsMap
    requires colorsMap[record.level].foreground.Some?
    requires colorsMap[record.level].foreground.value !in ForegroundColors
    ensures FormatWith(emission, colorsMap, record, plainLine) ==
      Err(InvalidForeground(colorsMap[record.level].foreground.value, ColorNames))
  {
  }

  /** With an acceptable foreground, an unknown background fails the call. */
  lemma {:induction false} FormatRejectsUnknownBackground(emission: Emission, colorsMap: ColorsMap, record: LogRecord, plainLine: string)
    requires record.level in colorsMap
    requires var rule := colorsMap[record.level];
      (rule.foreground.Some? ==> rule.foreground.value in ForegroundColors) &&
      rule.background.Some? && rule.background.value !in BackgroundColors
    ensures FormatWith(emission, colorsMap, record, plainLine) ==
      Err(InvalidBackground(colorsMap[record.level].background.value, ColorNames))
  {
  }

  /** With acceptable colours, one unknown option anywhere in the list fails
      the call: the first unknown option is reported, and no codes reach the
      output. */
  lemma {:induction false} FormatRejectsUnknownOption(emission: Emission, colorsMap: ColorsMap, record: LogRecord, plainLine: string, k: nat)
    requires record.level in colorsMap
    requires var rule := colorsMap[record.level];
      (rule.foreground.Some? ==> rule.foreground.value in ForegroundColors) &&
      (rule.background.Some? ==> rule.background.value in BackgroundColors) &&
      k < |rule.options| && rule.options[k] !in Options &&
      forall j :: 0 <= j < k ==> rule.options[j] in Options
    ensures FormatWith(emission, colorsMap, record, plainLine) ==
      Err(InvalidOption(colorsMap[record.level].options[k], OptionNames))
  {
    OptionsOutcomeReportsFirstInvalid(colorsMap[record.level].options, k);
  }

  /** A level without a rule fails with the no-colour-map error naming it. */
  lemma {:induction false} FormatRejectsMissingLevel(emission: Emission, colorsMap: ColorsMap, record: LogRecord, plainLine: string)
    requires record.level !in colorsMap
    ensures FormatWith(emission, colorsMap, record, plainLine) == Err(NoColorMap(record.level))
  {
  }

  // ---------------------------------------------------------------------
  // The code lists

  /** The pairs of an accepted rule: the foreground pair first, then the
      background pair, then one pair per option in the order given. */
  lemma {:induction false} RulePairsLayout(rule: StyleRule, emission: Emission)
    requires RulePairs(rule, emission).Ok?
    ensures var ps := RulePairs(rule, emission).value;
      var fgCount := if rule.foreground.Some? then 1 else 0;
      var bgCount := if rule.background.Some? then 1 else 0;
      |ps| == AttributeCount(rule) &&
      (rule.foreground.Some? ==> ps[0] == ForegroundColors[rule.foreground.value]) &&
      (rule.background.Some? ==> ps[fgCount] == BackgroundEmitTable(emission)[rule.background.value]) &&
      forall j :: 0 <= j < |rule.options| ==> ps[fgCount + bgCount + j] == Options[rule.options[j]]
  {
    RulePairsFromParts(rule, emission,
      if rule.foreground.Some? then [ForegroundColors[rule.foreground.value]] else [],
      if rule.background.Some? then [BackgroundEmitTable(emission)[rule.background.value]] else []);
  }

  /** The set list and the unset list have the same length, and the codes at
      each position come from the same palette entry. */
  lemma {:induction false} CodeListsParallel(ps: seq<SgrPair>)
    ensures |SetCodes(ps)| == |UnsetCodes(ps)| == |ps|
    ensures forall i :: 0 <= i < |ps| ==> SgrPair(SetCodes(ps)[i], UnsetCodes(ps)[i]) == ps[i]
  {
  }

  // ---------------------------------------------------------------------
  // The output

  /** An accepted rule leaves the plain line unchanged exactly when it names
      no colour and no option. */
  lemma {:induction false} FormatIdentityIffUnstyled(emission: Emission, colorsMap: ColorsMap, record: LogRecord, plainLine: string)
    requires record.level in colorsMap && RulePairs(colorsMap[record.level], emission).Ok?
    ensures FormatWith(emission, colorsMap, record, plainLine) == Ok(plainLine) <==> Unstyled(colorsMap[record.level])
  {
    var rule := colorsMap[record.level];
    RulePairsLayout(rule, emission);
    var ps := RulePairs(rule, emission).value;
    if |ps| > 0 {
      var s := StyledLine(SetCodes(ps), UnsetCodes(ps), record.levelName, plainLine);
      assert |s| > |plainLine|;
    }
  }

  /** A rule with no colour and no option leaves the plain line unchanged. */
  lemma {:induction false} FormatUnstyledIsIdentity(emission: Emission, colorsMap: ColorsMap, record: LogRecord, plainLine: string)
    requires record.level in colorsMap && Unstyled(colorsMap[record.level])
    ensures FormatWith(emission, colorsMap, record, plainLine) == Ok(plainLine)
  {
    FormatIdentityIffUnstyled(emission, colorsMap, record, plainLine);
  }

  /** A styled line starts with the control sequence introducer, carries
      "[LEVEL]" right after the set sequence, then a second control
      sequence, and ends with the plain line. */
  lemma {:induction false} StyledLineShape(setCodes: seq<nat>, unsetCodes: seq<nat>, levelName: string, plainLine: string)
    ensures var s := StyledLine(setCodes, unsetCodes, levelName, plainLine);
      var tagAt := |Join(setCodes)| + 3;
      |s| == tagAt + |levelName| + 2 + |Join(unsetCodes)| + 4 + |plainLine| &&
      s[..2] == Csi &&
      s[tagAt..tagAt + |levelName| + 2] == LevelTag(levelName) &&
      s[tagAt + |levelName| + 2..][..2] == Csi &&
      s[|s| - |plainLine|..] == plainLine
  {
    var on := SgrSequence(setCodes);
    var tag := LevelTag(levelName);
    var off := Csi + Join(unsetCodes) + "m ";
    var s := StyledLine(setCodes, unsetCodes, levelName, plainLine);
    assert s == on + (tag + (off + plainLine));
    ConcatParts(on, tag, off, plainLine);
  }

  lemma ConcatParts(a: string, b: string, c: string, d: string)
    requires |a| >= 2 && |c| >= 2
    ensures var s := a + (b + (c + d));
      s[..2] == a[..2] && s[|a|..|a| + |b|] == b && s[|a| + |b|..][..2] == c[..2] && s[|s| - |d|..] == d
  {
    var s := a + (b + (c + d));
    assert s[|a|..] == b + (c + d);
    assert s[|a| + |b|..] == c + d;
  }

  /** A terminal reading a styled line finds the end of the first control
      sequence right after the set codes, and reading its parameters gives
      back exactly the set codes. */
  lemma {:induction false} StyledLineSetCodesReadBack(setCodes: seq<nat>, unsetCodes: seq<nat>, levelName: string, plainLine: string)
    requires |setCodes| > 0
    ensures var s := StyledLine(setCodes, unsetCodes, levelName, plainLine);
      |s| >= 2 + |Join(setCodes)| &&
      IndexOf(s[2..], 'm') == |Join(setCodes)| &&
      (JoinAlphabet(setCodes); ParseCodes(s[2..2 + |Join(setCodes)|]) == setCodes)
  {
    var rest := LevelTag(levelName) + (Csi + Join(unsetCodes) + "m " + plainLine);
    assert StyledLine(setCodes, unsetCodes, levelName, plainLine) == SgrSequence(setCodes) + rest;
    SgrSequenceReadBack(setCodes, rest);
  }

  /** A styled result is the level tag wrapped in the rule's set and unset
      sequences, one space, then the plain line. */
  lemma {:induction false} FormatStyledResult(emission: Emission, colorsMap: ColorsMap, record: LogRecord, plainLine: string)
    requires record.level in colorsMap && RulePairs(colorsMap[record.level], emission).Ok?
    requires !Unstyled(colorsMap[record.level])
    ensures var ps := RulePairs(colorsMap[record.level], emission).value;
      FormatWith(emission, colorsMap, record, plainLine) ==
        Ok(Csi + Join(SetCodes(ps)) + "m" + LevelTag(record.levelName) + Csi + Join(UnsetCodes(ps)) + "m " + plainLine)
  {
    RulePairsLayout(colorsMap[record.level], emission);
  }

  // ---------------------------------------------------------------------
  // Background codes

  /** As written, every background colour emits its foreground codes: a set
      code between 30 and 37 and the unset code 39. Corrected, it emits its
      background codes: ten more than the foreground set code, and 49. */
  lemma BackgroundCodesByEmission()
    ensures forall c :: c in BackgroundColors ==>
      var p := BackgroundEmitTable(ForegroundTableForBackground)[c];
      p == ForegroundColors[c] && 30 <= p.setCode <= 37 && p.unsetCode == 39
    ensures forall c :: c in BackgroundColors ==>
      var p := BackgroundEmitTable(BackgroundTable)[c];
      p == SgrPair(ForegroundColors[c].setCode + 10, 49)
  {
  }

  /** The codes of the built-in ERROR rule (white on red). */
  lemma DefaultErrorRulePairs()
    ensures RulePairs(DefaultColorsMap[Levels.Error], ForegroundTableForBackground) == Ok([SgrPair(37, 39), SgrPair(31, 39)])
    ensures RulePairs(DefaultColorsMap[Levels.Error], BackgroundTable) == Ok([SgrPair(37, 39), SgrPair(41, 49)])
  {
    var rule := DefaultColorsMap[Levels.Error];
    assert rule == StyleRule(Some("white"), Some("red"), []);
    assert OptionPairs([]) == [];
    RulePairsFromParts(rule, ForegroundTableForBackground, [SgrPair(37, 39)], [SgrPair(31, 39)]);
    RulePairsFromParts(rule, BackgroundTable, [SgrPair(37, 39)], [SgrPair(41, 49)]);
    assert [SgrPair(37, 39)] + [SgrPair(31, 39)] + [] == [SgrPair(37, 39), SgrPair(31, 39)];
    assert [SgrPair(37, 39)] + [SgrPair(41, 49)] + [] == [SgrPair(37, 39), SgrPair(41, 49)];
  }

  lemma CodeTexts()
    ensures NatToString(31) == "31" && NatToString(37) == "37" && NatToString(39) == "39"
    ensures NatToString(41) == "41" && NatToString(49) == "49"
  {
  }

  /** The text of a styled line whose two code lists have two codes each. */
  lemma TwoCodeStyledText(ps: seq<SgrPair>, setText: string, unsetText: string, levelName: string, plainLine: string)
    requires |ps| == 2
    requires setText == NatToString(ps[0].setCode) + ";" + NatToString(ps[1].setCode)
    requires unsetText == NatToString(ps[0].unsetCode) + ";" + NatToString(ps[1].unsetCode)
    ensures StyledLine(SetCodes(ps), UnsetCodes(ps), levelName, plainLine) ==
      Csi + setText + "m" + LevelTag(levelName) + Csi + unsetText + "m " + plainLine
  {
    assert SetCodes(ps)[1..] == [ps[1].setCode];
    assert UnsetCodes(ps)[1..] == [ps[1].unsetCode];
    assert Join(SetCodes(ps)) == setText;
    assert Join(UnsetCodes(ps)) == unsetText;
  }

  /** As written, the built-in ERROR rule produces set codes 37;31 and unset
      codes 39;39: the red background is sent as a red foreground, and the
      unset sequence resets the foreground twice. */
  lemma DefaultErrorRuleAsWritten(plainLine: string)
    ensures FormatLineAsWritten(DefaultColorsMap, LogRecord(Levels.Error, "ERROR"), plainLine) ==
      Ok(Csi + "37;31" + "m" + "[ERROR]" + Csi + "39;39" + "m " + plainLine)
  {
    var ps := [SgrPair(37, 39), SgrPair(31, 39)];
    DefaultErrorRulePairs();
    DefaultColorsMapCoversLevels();
    FormatFromPairs(ForegroundTableForBackground, DefaultColorsMap, LogRecord(Levels.Error, "ERROR"), plainLine, ps);
    CodeTexts();
    TwoCodeStyledText(ps, "37;31", "39;39", "ERROR", plainLine);
    assert LevelTag("ERROR") == "[ERROR]";
  }

  /** With background codes from the background palette, the built-in
      ERROR rule produces set codes 37;41 and unset codes 39;49. */
  lemma DefaultErrorRuleCorrected(plainLine: string)
    ensures FormatLine(DefaultColorsMap, LogRecord(Levels.Error, "ERROR"), plainLine) ==
      Ok(Csi + "37;41" + "m" + "[ERROR]" + Csi + "39;49" + "m " + plainLine)
  {
    var ps := [SgrPair(37, 39), SgrPair(41, 49)];
    DefaultErrorRulePairs();
    DefaultColorsMapCoversLevels();
    FormatFromPairs(BackgroundTable, DefaultColorsMap, LogRecord(Levels.Error, "ERROR"), plainLine, ps);
    CodeTexts();
    TwoCodeStyledText(ps, "37;41", "39;49", "ERROR", plainLine);
    assert LevelTag("ERROR") == "[ERROR]";
  }

  /** A rule with only foreground red gives set code 31 and unset code 39;
      white on red with bold gives 37;41;1 and 39;49;22, in that order. */
  lemma SampleRuleCodes()
    ensures RulePairs(StyleRule(Some("red"), None, []), BackgroundTable) == Ok([SgrPair(31, 39)])
    ensures RulePairs(StyleRule(Some("white"), Some("red"), ["bold"]), BackgroundTable) ==
      Ok([SgrPair(37, 39), SgrPair(41, 49), SgrPair(1, 22)])
  {
    assert OptionPairs([]) == [];
    assert OptionPairs(["bold"]) == [SgrPair(1, 22)];
    RulePairsFromParts(StyleRule(Some("red"), None, []), BackgroundTable, [SgrPair(31, 39)], []);
    assert [SgrPair(31, 39)] + [] + [] == [SgrPair(31, 39)];
    RulePairsFromParts(StyleRule(Some("white"), Some("red"), ["bold"]), BackgroundTable, [SgrPair(37, 39)], [SgrPair(41, 49)]);
    assert [SgrPair(37, 39)] + [SgrPair(41, 49)] + [SgrPair(1, 22)] == [SgrPair(37, 39), SgrPair(41, 49), SgrPair(1, 22)];
  }

  // ---------------------------------------------------------------------
  // The built-in map and the constructor merges

  /** Every built-in rule is accepted and styled, so with the built-in map
      every Monolog level yields a line that starts with the control sequence
      introducer and ends with the plain line. */
  lemma {:induction false} DefaultLevelsAreStyled(emission: Emission, record: LogRecord, plainLine: string)
    requires record.level in Levels.All
    ensures FormatWith(emission, DefaultColorsMap, record, plainLine).Ok?
    ensures var s := FormatWith(emission, DefaultColorsMap, record, plainLine).value;
      |s| > |plainLine| + 2 && s[..2] == Csi && s[|s| - |plainLine|..] == plainLine
  {
    DefaultColorsMapCoversLevels();
    var rule := DefaultColorsMap[record.level];
    assert rule.foreground.Some?;
    RulePairsLayout(rule, emission);
    var ps := RulePairs(rule, emission).value;
    StyledLineShape(SetCodes(ps), UnsetCodes(ps), record.levelName, plainLine);
  }

  /** A caller map naming only ERROR leaves the output for every other
      Monolog level as the built-in map gives it. */
  lemma {:induction false} OverrideOnlyErrorKeepsOtherLevels(rule: StyleRule, record: LogRecord, plainLine: string)
    requires record.level in Levels.All && record.level != Levels.Error
    ensures FormatLine(MergeColorsMap(DefaultColorsMap, map[Levels.Error := rule]), record, plainLine) ==
      FormatLine(DefaultColorsMap, record, plainLine)
  {
    MergeOnlyErrorKeepsOthers(rule);
  }

  /** With the merge as written, a caller array of at most 92 rules makes
      `format` fail for every Monolog level, whatever the rules say. */
  lemma {:induction false} ArrayMergeAsWrittenFailsEveryLevel(second: ColorsArray, emission: Emission, record: LogRecord, plainLine: string)
    requires |second| <= 92 && record.level in Levels.All
    ensures FormatWith(emission, ArrayMergeAsWritten(DefaultColorsArray, second), record, plainLine) ==
      Err(NoColorMap(record.level))
  {
    ArrayMergeAsWrittenLosesLevels(second);
  }

  /** A formatter built without a colour map or format styles ERROR records
      with the corrected background codes and gives the same answer each
      time it is asked. */
  method DefaultFormatterClient(plainLine: string) returns (first: Result<string, Error>, second: Result<string, Error>)
    ensures first == second == Ok(Csi + "37;41" + "m" + "[ERROR]" + Csi + "39;49" + "m " + plainLine)
  {
    var formatter := new ColoredConsoleFormatter(None, None, None, false);
    assert formatter.lineFormat == DefaultLineFormat;
    first := formatter.Format(LogRecord(Levels.Error, "ERROR"), plainLine);
    second := formatter.Format(LogRecord(Levels.Error, "ERROR"), plainLine);
    DefaultErrorRuleCorrected(plainLine);
  }
}
