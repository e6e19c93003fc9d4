# ColoredConsoleFormatter, modelled in Dafny

This project models the core of `zoya-monolog`: `ColoredConsoleFormatter`, a
Monolog formatter that prefixes every log line with its level tag
`[LEVEL]`, coloured by SGR (Select Graphic Rendition, ECMA-48 section
8.3.117) control sequences chosen per severity level.

The model covers:

- the three palettes (foreground colours, background colours, text options),
  each mapping a name to a set code and an unset code;
- the built-in colour map from Monolog's eight levels to a style rule;
- the constructor: the merge of a caller's colour map over the built-in one
  and the default line template;
- the validators `checkForeground`, `checkBackground`, `checkOption` and
  `checkOptions`;
- `format`: the look-up of the level's rule, validation, the two parallel
  code lists, and the styled or plain result.

Files:

- `wrappers.dfy`: `Option`, `Result` and `Outcome`.
- `levels.dfy`: Monolog's level numbers (100 to 600).
- `palette.dfy`: the palettes, decimal text, `implode(';', …)` and reading codes back.
- `style_rules.dfy`: style rules, the built-in map and both merges.
- `colored_console_formatter.dfy`: the validators, `format` as specification
  functions, and the `ColoredConsoleFormatter` class.
- `formatter_properties.dfy`: the lemmas about `format`.

The output of the parent `LineFormatter::format` is an opaque string
`plainLine` that `Format` receives. A record is reduced to the two fields
the formatter reads itself, `level` and `level_name`. The exceptions become
`Err` values of `ColoredConsole.Error`. The validation errors carry the
offending name and the list of valid names shown in the message.

`Format` is a method of the class. It builds the set and unset lists by
appending: foreground, background, then a loop over the options. It is
proved equal to the specification function `FormatLine`.

`FormatWith` is `format` as a function, with the background palette as a
parameter. `FormatLineAsWritten` is the program as written and `FormatLine`
the corrected variant. Their contracts state when they fail and that a
returned line ends with the plain line. The lemmas in
`formatter_properties.dfy` state the rest for `FormatWith` under either
palette:
- errors: `FormatRejectsMissingLevel`, `FormatRejectsUnknownForeground`,
  `FormatRejectsUnknownBackground`, `FormatRejectsUnknownOption`;
- the code lists: `RulePairsLayout`, `CodeListsParallel`;
- the result: `FormatIdentityIffUnstyled`, `FormatStyledResult`.
`DefaultErrorRuleAsWritten` and `DefaultErrorRuleCorrected` give the two
variants' output for the ERROR rule.

Two quirks of the source are modelled both as written and as evidently
intended (see "## Findings"):

- Background codes are emitted from the foreground palette. `Emission`
  says which palette `FormatWith` uses: `FormatLineAsWritten` uses the
  foreground palette, `FormatLine` the background palette. The class uses
  `FormatLine`.
- The constructor merges with `array_merge`. `ArrayMergeAsWritten` is PHP's
  renumbering merge; `MergeColorsMap` is the per-level override that the
  constructor's doc comment describes. The class uses `MergeColorsMap`.

As in the source, validation is deferred: a bad rule surfaces only when a
record of that level is formatted.

## Model

| member | source | states |
|---|---|---|
| Palette.PaletteLayout | src/Zoya/Monolog/Formatter/ColoredConsoleFormatter.php:17-49 | colour i sets foreground 30+i and background 40+i; foregrounds unset with 39, backgrounds with 49; the name lists are exactly the palette keys (8 colours, 5 options) |
| Palette.ParseJoin | src/Zoya/Monolog/Formatter/ColoredConsoleFormatter.php:229-231 | reading a non-empty `implode(';', codes)` back field by field gives exactly the codes |
| Palette.SgrSequenceReadBack | src/Zoya/Monolog/Formatter/ColoredConsoleFormatter.php:227-232 | in `ESC[<codes>m` followed by any text, the first `m` comes right after the codes, and the parameters read back to the codes |
| StyleRules.DefaultColorsMapCoversLevels | src/Zoya/Monolog/Formatter/ColoredConsoleFormatter.php:55-81 | the built-in map has a rule for exactly the eight Monolog levels |
| StyleRules.DefaultColorsArrayAgreesWithMap | src/Zoya/Monolog/Formatter/ColoredConsoleFormatter.php:55-81 | the declared array lists the eight levels DEBUG to EMERGENCY once each, with the same rule as the map |
| StyleRules.MergeColorsMap | src/Zoya/Monolog/Formatter/ColoredConsoleFormatter.php:97 | intended merge: the caller's rule wins for each level it names; every other level keeps its default; keys are the union |
| StyleRules.ArrayMergeAsWritten | src/Zoya/Monolog/Formatter/ColoredConsoleFormatter.php:108-110 | merge as written: the keys of both arrays are dropped and their rules, in order, are renumbered 0..n-1 |
| StyleRules.ArrayMergeAsWrittenLosesLevels | src/Zoya/Monolog/Formatter/ColoredConsoleFormatter.php:108-110 | as written, any caller map of at most 92 rules leaves no rule under any Monolog level |
| StyleRules.MergeOnlyErrorKeepsOthers | src/Zoya/Monolog/Formatter/ColoredConsoleFormatter.php:108-110 | intended merge of a map naming only ERROR changes ERROR and keeps the other seven rules |
| ColoredConsole.BackgroundEmitTable | src/Zoya/Monolog/Formatter/ColoredConsoleFormatter.php:208-213 | both choices of background palette have exactly the background palette's keys |
| ColoredConsole.CheckForeground | src/Zoya/Monolog/Formatter/ColoredConsoleFormatter.php:122-134 | passes iff the colour is null or a foreground key; otherwise the error names the colour and lists the 8 colours |
| ColoredConsole.CheckBackground | src/Zoya/Monolog/Formatter/ColoredConsoleFormatter.php:141-153 | passes iff the colour is null or a background key; otherwise the error names the colour and lists the 8 colours |
| ColoredConsole.CheckOption | src/Zoya/Monolog/Formatter/ColoredConsoleFormatter.php:160-170 | passes iff the option is a key of the options palette; otherwise the error names it and lists the 5 options |
| ColoredConsole.OptionsOutcome | src/Zoya/Monolog/Formatter/ColoredConsoleFormatter.php:177-182 | checking the options in turn passes iff every option is in the options palette |
| ColoredConsole.OptionsOutcomeReportsFirstInvalid | src/Zoya/Monolog/Formatter/ColoredConsoleFormatter.php:177-182 | the error reported is the first option outside the palette |
| ColoredConsole.CheckOptions | src/Zoya/Monolog/Formatter/ColoredConsoleFormatter.php:177-182 | the loop over the options returns what the specification of the check gives |
| ColoredConsole.AppendOptionCodes | src/Zoya/Monolog/Formatter/ColoredConsoleFormatter.php:218-222 | the loop appends each option's set and unset code to the two lists, in order |
| ColoredConsole.LevelTag | src/Zoya/Monolog/Formatter/ColoredConsoleFormatter.php:230 | the tag is the level name between `[` and `]` |
| ColoredConsole.FormatWith | src/Zoya/Monolog/Formatter/ColoredConsoleFormatter.php:189-233 | a missing level fails with its no-colour-map error; the call succeeds iff the level has a rule and the rule is valid; a returned line ends with the plain line |
| ColoredConsole.FormatLine | src/Zoya/Monolog/Formatter/ColoredConsoleFormatter.php:189-233 | corrected `format` (background codes from the background palette): fails iff the level has no rule or the rule is invalid, a missing level with its no-colour-map error; a returned line ends with the plain line |
| ColoredConsole.FormatLineAsWritten | src/Zoya/Monolog/Formatter/ColoredConsoleFormatter.php:189-233 | `format` as written (background codes from the foreground palette): fails on exactly the inputs the corrected `format` fails on, with the same error; a returned line ends with the plain line |
| ColoredConsole.ColoredConsoleFormatter.constructor | src/Zoya/Monolog/Formatter/ColoredConsoleFormatter.php:102-115 | a null map keeps the built-in map, otherwise the caller's map is merged over it per level (the corrected merge, not `array_merge`); a null format gives `"%channel%: %message% [%datetime%] \n"`; date format and line-break flag are kept |
| ColoredConsole.ColoredConsoleFormatter.Format | src/Zoya/Monolog/Formatter/ColoredConsoleFormatter.php:189-233 | the appending construction of the code lists and the result equal `FormatLine` (corrected background codes) of the object's map |
| ColoredConsole.RulePairs | src/Zoya/Monolog/Formatter/ColoredConsoleFormatter.php:198-223 | a rule is accepted iff each named colour is in its palette and every option is in the options palette; null colours are accepted |
| FormatterProperties.FormatRejectsUnknownForeground | src/Zoya/Monolog/Formatter/ColoredConsoleFormatter.php:201-206 | an unknown foreground fails the call with that colour's error whatever follows |
| FormatterProperties.FormatRejectsUnknownBackground | src/Zoya/Monolog/Formatter/ColoredConsoleFormatter.php:208-213 | with an acceptable foreground, an unknown background fails the call with that colour's error |
| FormatterProperties.FormatRejectsUnknownOption | src/Zoya/Monolog/Formatter/ColoredConsoleFormatter.php:215-223 | with acceptable colours, the first unknown option fails the whole call; no string is returned |
| FormatterProperties.FormatRejectsMissingLevel | src/Zoya/Monolog/Formatter/ColoredConsoleFormatter.php:193-195 | a level without a rule fails with the no-colour-map error naming the level |
| FormatterProperties.RulePairsLayout | src/Zoya/Monolog/Formatter/ColoredConsoleFormatter.php:198-223 | the number of pairs is one per colour given plus one per option; foreground first, then background, then each option in the order given |
| FormatterProperties.CodeListsParallel | src/Zoya/Monolog/Formatter/ColoredConsoleFormatter.php:198-223 | set and unset lists have equal length and each position comes from one palette entry |
| FormatterProperties.FormatIdentityIffUnstyled | src/Zoya/Monolog/Formatter/ColoredConsoleFormatter.php:224-226 | for an accepted rule, the result is the plain line unchanged iff the rule names no colour and no option |
| FormatterProperties.FormatUnstyledIsIdentity | src/Zoya/Monolog/Formatter/ColoredConsoleFormatter.php:224-226 | a rule with no colour and no option returns the plain line unchanged |
| FormatterProperties.StyledLineShape | src/Zoya/Monolog/Formatter/ColoredConsoleFormatter.php:227-232 | a styled line starts with `ESC[`, has `[LEVEL]` right after the set sequence, then `ESC[` again, and ends with the plain line |
| FormatterProperties.StyledLineSetCodesReadBack | src/Zoya/Monolog/Formatter/ColoredConsoleFormatter.php:227-232 | the first `m` in a styled line ends the set codes, which read back exactly |
| FormatterProperties.FormatStyledResult | src/Zoya/Monolog/Formatter/ColoredConsoleFormatter.php:227-232 | a styled result is exactly `ESC[` set-codes `m[LEVEL]ESC[` unset-codes `m ` then the plain line |
| FormatterProperties.BackgroundCodesByEmission | src/Zoya/Monolog/Formatter/ColoredConsoleFormatter.php:208-213 | as written, a background emits its foreground pair (set 30..37, unset 39); corrected, set is foreground + 10 and unset 49 |
| FormatterProperties.DefaultErrorRulePairs | src/Zoya/Monolog/Formatter/ColoredConsoleFormatter.php:64 | the built-in ERROR rule gives pairs (37,39),(31,39) as written and (37,39),(41,49) corrected |
| FormatterProperties.DefaultErrorRuleAsWritten | src/Zoya/Monolog/Formatter/ColoredConsoleFormatter.php:211-212 | as written, ERROR formats as `ESC[37;31m[ERROR]ESC[39;39m ` then the plain line |
| FormatterProperties.DefaultErrorRuleCorrected | src/Zoya/Monolog/Formatter/ColoredConsoleFormatter.php:30-39 | with the background palette, ERROR formats as `ESC[37;41m[ERROR]ESC[39;49m ` then the plain line |
| FormatterProperties.SampleRuleCodes | src/Zoya/Monolog/Formatter/ColoredConsoleFormatter.php:198-223 | foreground red alone gives (31,39); white on red with bold gives (37,39),(41,49),(1,22) in that order |
| FormatterProperties.DefaultLevelsAreStyled | src/Zoya/Monolog/Formatter/ColoredConsoleFormatter.php:55-81 | with the built-in map every Monolog level formats successfully to a line starting with `ESC[` and ending with the plain line |
| FormatterProperties.OverrideOnlyErrorKeepsOtherLevels | src/Zoya/Monolog/Formatter/ColoredConsoleFormatter.php:97 | with the intended merge, a caller map naming only ERROR leaves every other level's output as the built-in map gives it |
| FormatterProperties.ArrayMergeAsWrittenFailsEveryLevel | src/Zoya/Monolog/Formatter/ColoredConsoleFormatter.php:109 | with the merge as written, any caller map of at most 92 rules makes `format` fail for every Monolog level |
| FormatterProperties.DefaultFormatterClient | src/Zoya/Monolog/Formatter/ColoredConsoleFormatter.php:102-115 | a formatter built with no arguments formats ERROR the same way twice, with the corrected background codes: `ESC[37;41m[ERROR]ESC[39;49m ` then the plain line |

## Left out

- `LineFormatter::format`, the parent that renders the plain line, belongs to Monolog and is not part of this model. Its output is the input `plainLine`. This covers templating, date formatting and inline line breaks. The date format and line-break flag are only stored by the constructor.
- Monolog's `Logger` class is not part of this model. Its level numbers are restated in `levels.dfy`.
- The exact exception messages built by `sprintf`/`implode` are not modelled. An error carries the offending value (or level) and the list of valid names.
- PHP "undefined index" notices for a rule that lacks one of its three keys are not modelled: a `StyleRule` always has all three fields. Non-string colour or option values are not modelled either.
- PHP array keys are modelled as integers only. Monolog levels are integers, and PHP stores numeric string keys as integers.
- `src/bootstrap.php` (error and exception handler wiring, writes to STDERR) and `examples/monolog.php` (logger and stream setup) are I/O and are not modelled.
- ColoredConsole.ColoredConsoleFormatter.Format: emits background codes from the background palette (the corrected choice), where the program reads the foreground palette at lines 211-212. `FormatLineAsWritten` (with `DefaultErrorRuleAsWritten`) is the as-written half.
- ColoredConsole.ColoredConsoleFormatter.constructor: merges a caller's map per level (the corrected choice), where the program calls `array_merge` at line 109. `ArrayMergeAsWritten` (with `ArrayMergeAsWrittenFailsEveryLevel`) is the as-written half.
- Concurrency is not modelled. The fields are constants set by the constructor, so the map is never changed after construction and `Format` has no `modifies` clause, so repeated calls give the same result.

## Findings

| source | as written | input that shows it | evidently intended | confidence | as-written member | corrected member |
|---|---|---|---|---|---|---|
| src/Zoya/Monolog/Formatter/ColoredConsoleFormatter.php:211-212 | a background colour is validated against the background palette but its codes are read from the foreground palette | the built-in ERROR rule (white on red): set codes `37;31`, unset codes `39;39` | background codes from the background palette: `37;41` and `39;49` | high; not executed | FormatterProperties.DefaultErrorRuleAsWritten | FormatterProperties.DefaultErrorRuleCorrected |
| src/Zoya/Monolog/Formatter/ColoredConsoleFormatter.php:108-110 | `array_merge` renumbers the integer level keys of both maps to 0, 1, 2, … | `new ColoredConsoleFormatter([Logger::ERROR => [...]])`, then formatting any record: no level has a rule, so every call fails | the caller's rule replaces the default for each level it names (doc comment at line 97) | high; not executed | StyleRules.ArrayMergeAsWrittenLosesLevels | StyleRules.MergeColorsMap |
