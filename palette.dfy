/** The three SGR (Select Graphic Rendition, ECMA-48 section 8.3.117)
    palettes the formatter draws from, and the text of an SGR control
    sequence built from a list of parameter codes. */
module Palette {

  /** The parameter that turns an attribute on and the one that turns it off. */
  datatype SgrPair = SgrPair(setCode: nat, unsetCode: nat)

  /** The colour names, in the order the palettes declare them; this is the
      list a validation error offers as the expected names. */
  const ColorNames: seq<string> :=
    ["black", "red", "green", "yellow", "blue", "magenta", "cyan", "white"]

  /** The option names, in the order the options palette declares them. */
  const OptionNames: seq<string> := ["bold", "underscore", "blink", "reverse", "conceal"]

  const ForegroundColors: map<string, SgrPair> := map[
    "black" := SgrPair(30, 39),
    "red" := SgrPair(31, 39),
    "green" := SgrPair(32, 39),
    "yellow" := SgrPair(33, 39),
    "blue" := SgrPair(34, 39),
    "magenta" := SgrPair(35, 39),
    "cyan" := SgrPair(36, 39),
    "white" := SgrPair(37, 39)
  ]

  const BackgroundColors: map<string, SgrPair> := map[
    "black" := SgrPair(40, 49),
    "red" := SgrPair(41, 49),
    "green" := SgrPair(42, 49),
    "yellow" := SgrPair(43, 49),
    "blue" := SgrPair(44, 49),
    "magenta" := SgrPair(45, 49),
    "cyan" := SgrPair(46, 49),
    "white" := SgrPair(47, 49)
  ]

  const Options: map<string, SgrPair> := map[
    "bold" := SgrPair(1, 22),
    "underscore" := SgrPair(4, 24),
    "blink" := SgrPair(5, 25),
    "reverse" := SgrPair(7, 27),
    "conceal" := SgrPair(8, 28)
  ]

  /** Colour number i (0 = black ... 7 = white) sets foreground 30 + i and
      background 40 + i; every foreground resets with 39 and every
      background with 49. The name lists are exactly the palettes' keys. */
  lemma PaletteLayout()
    ensures |ColorNames| == 8 && |OptionNames| == 5
    ensures forall i :: 0 <= i < |ColorNames| ==>
      ColorNames[i] in ForegroundColors && ColorNames[i] in BackgroundColors &&
      ForegroundColors[ColorNames[i]] == SgrPair(30 + i, 39) &&
      BackgroundColors[ColorNames[i]] == SgrPair(40 + i, 49)
    ensures forall c :: c in ForegroundColors <==> c in ColorNames
    ensures forall c :: c in BackgroundColors <==> c in ColorNames
    ensures forall o :: o in Options <==> o in OptionNames
  {
    forall c | c in ForegroundColors ensures c in ColorNames {
      assert ColorNames == ["black", "red", "green", "yellow", "blue", "magenta", "cyan", "white"];
    }
  }

  // ---------------------------------------------------------------------
  // SGR control sequences

  /** The escape character, 0x1B. */
  const Esc: char := 27 as char

  /** The 7-bit Control Sequence Introducer, ESC followed by '['. */
  const Csi: string := [Esc, '[']

  function DigitChar(d: nat): (c: char)
    requires d < 10
    ensures '0' <= c <= '9'
  {
    ('0' as int + d) as char
  }

  predicate IsDigit(c: char) {
    '0' <= c <= '9'
  }

  /** The decimal text of a code, as PHP writes an integer into a string. */
  function NatToString(n: nat): (s: string)
    ensures |s| > 0
    ensures forall k :: 0 <= k < |s| ==> IsDigit(s[k])
  {
    if n < 10 then [DigitChar(n)] else NatToString(n / 10) + [DigitChar(n % 10)]
  }

  /** The value of a string of decimal digits. */
  function ParseNat(s: string): nat
    requires forall k :: 0 <= k < |s| ==> IsDigit(s[k])
  {
    if |s| == 0 then 0
    else
      assert IsDigit(s[|s| - 1]);
      10 * ParseNat(s[..|s| - 1]) + (s[|s| - 1] as int - '0' as int)
  }

  lemma {:induction false} ParseNatToString(n: nat)
    ensures ParseNat(NatToString(n)) == n
  {
    var s := NatToString(n);
    if n >= 10 {
      assert s[..|s| - 1] == NatToString(n / 10);
      ParseNatToString(n / 10);
    }
  }

  /** The codes written in decimal and separated by ';', as PHP's
      `implode(';', $codes)` writes them. */
  function Join(codes: seq<nat>): (s: string)
    ensures |codes| == 0 <==> |s| == 0
  {
    if |codes| == 0 then ""
    else if |codes| == 1 then NatToString(codes[0])
    else NatToString(codes[0]) + ";" + Join(codes[1..])
  }

  /** Joined codes hold only digits and separators, so a terminal finds the
      end of the parameter list at the first other character. */
  lemma {:induction false} JoinAlphabet(codes: seq<nat>)
    ensures forall k :: 0 <= k < |Join(codes)| ==> IsDigit(Join(codes)[k]) || Join(codes)[k] == ';'
  {
    if |codes| > 1 {
      JoinAlphabet(codes[1..]);
      var head := NatToString(codes[0]);
      var s := Join(codes);
      forall k | 0 <= k < |s| ensures IsDigit(s[k]) || s[k] == ';' {
        if k > |head| {
          assert s[k] == Join(codes[1..])[k - |head| - 1];
        }
      }
    }
  }

  /** The position of the first `c` in `s`, or |s| when there is none. */
  function IndexOf(s: string, c: char): (k: nat)
    ensures k <= |s|
    ensures forall j :: 0 <= j < k ==> s[j] != c
    ensures k < |s| ==> s[k] == c
  {
    if |s| == 0 then 0 else if s[0] == c then 0 else 1 + IndexOf(s[1..], c)
  }

  /** Reads a parameter list back: the decimal fields between ';'. */
  function ParseCodes(s: string): seq<nat>
    requires forall k :: 0 <= k < |s| ==> IsDigit(s[k]) || s[k] == ';'
    decreases |s|
  {
    var k := IndexOf(s, ';');
    if k == |s| then [ParseNat(s)]
    else [ParseNat(s[..k])] + ParseCodes(s[k + 1..])
  }

  /** The first `c` in `a + b` lies in `b` when `a` holds none. */
  lemma {:induction false} IndexOfAfterPrefix(a: string, b: string, c: char)
    requires forall k :: 0 <= k < |a| ==> a[k] != c
    ensures IndexOf(a + b, c) == |a| + IndexOf(b, c)
  {
    if |a| > 0 {
      assert (a + b)[1..] == a[1..] + b;
      IndexOfAfterPrefix(a[1..], b, c);
    } else {
      assert a + b == b;
    }
  }

  /** Reading back a non-empty joined list gives the codes that were joined. */
  lemma {:induction false} ParseJoin(codes: seq<nat>)
    requires |codes| > 0
    ensures (JoinAlphabet(codes); ParseCodes(Join(codes))) == codes
  {
    JoinAlphabet(codes);
    var head := NatToString(codes[0]);
    ParseNatToString(codes[0]);
    var s := Join(codes);
    if |codes| == 1 {
      IndexOfAfterPrefix(head, "", ';');
      assert head + "" == head;
    } else {
      var rest := Join(codes[1..]);
      assert s == head + (";" + rest);
      IndexOfAfterPrefix(head, ";" + rest, ';');
      assert s[..|head|] == head;
      assert s[|head| + 1..] == rest;
      ParseJoin(codes[1..]);
    }
  }

  /** The SGR control sequence that sends the given parameter codes. */
  function SgrSequence(codes: seq<nat>): (s: string)
    ensures |s| == |Join(codes)| + 3
    ensures s[..2] == Csi && s[|s| - 1] == 'm'
  {
    Csi + Join(codes) + "m"
  }

  /** A terminal reading an SGR sequence followed by any text finds the
      final 'm' right after the parameters, and reading the parameters
      gives back the codes that were sent. */
  lemma {:induction false} SgrSequenceReadBack(codes: seq<nat>, rest: string)
    requires |codes| > 0
    ensures var s := SgrSequence(codes) + rest;
      |s| >= 2 + |Join(codes)| &&
      IndexOf(s[2..], 'm') == |Join(codes)| &&
      (JoinAlphabet(codes); ParseCodes(s[2..2 + |Join(codes)|]) == codes)
  {
    var j := Join(codes);
    var s := SgrSequence(codes) + rest;
    assert s == Csi + (j + ("m" + rest));
    assert s[2..] == j + ("m" + rest);
    JoinAlphabet(codes);
    IndexOfAfterPrefix(j, "m" + rest, 'm');
    assert s[2..2 + |j|] == j;
    ParseJoin(codes);
  }
}
