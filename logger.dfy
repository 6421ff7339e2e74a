/**
 * internal/platform/logger/logger.go: the writer that colours the level word of
 * each log line. A level is recognised only as the token " LEVEL " (with a space
 * on each side), and only its first occurrence is coloured.
 */
module Logger {
  import opened Wrappers
  import Ansi

  /** The token searched for: the level with one space on each side. */
  function Pattern(level: string): string {
    " " + level + " "
  }

  predicate OccursAt(s: string, p: string, i: int) {
    0 <= i && i + |p| <= |s| && s[i..i + |p|] == p
  }

  /** The least index at or after `from` where `p` occurs in `s`, if there is one. */
  function FirstOccurrence(s: string, p: string, from: nat): (r: Option<nat>)
    decreases |s| - from
    ensures r.Some? ==> from <= r.value && OccursAt(s, p, r.value)
    ensures r.Some? ==> forall j :: from <= j < r.value ==> !OccursAt(s, p, j)
    ensures r.None? ==> forall j :: from <= j ==> !OccursAt(s, p, j)
  {
    if from + |p| > |s| then None
    else if s[from..from + |p|] == p then Some(from)
    else FirstOccurrence(s, p, from + 1)
  }

  /** What replaceLevel computes: the first " level " becomes " colored ". */
  function ReplaceFirst(s: string, level: string, colored: string): string {
    match FirstOccurrence(s, Pattern(level), 0)
    case None => s
    case Some(i) => s[..i] + Pattern(colored) + s[i + |Pattern(level)|..]
  }

  /** replaceLevel: scan left to right and splice at the first match. */
  method ReplaceLevel(s: string, level: string, colored: string) returns (r: string)
    ensures r == ReplaceFirst(s, level, colored)
  {
    var pattern := Pattern(level);
    var coloredPattern := Pattern(colored);
    var i := 0;
    while i <= |s| - |pattern|
      invariant 0 <= i
      invariant forall j :: 0 <= j < i ==> !OccursAt(s, pattern, j)
    {
      if s[i..i + |pattern|] == pattern {
        assert OccursAt(s, pattern, i);
        return s[..i] + coloredPattern + s[i + |pattern|..];
      }
      i := i + 1;
    }
    return s;
  }

  /** Without an occurrence of the token the string comes back unchanged. */
  lemma ReplaceWithoutMatch(s: string, level: string, colored: string)
    requires forall i :: !OccursAt(s, Pattern(level), i)
    ensures ReplaceFirst(s, level, colored) == s
  {
  }

  /** A string shorter than the token cannot contain it. */
  lemma ShortStringUnchanged(s: string, level: string, colored: string)
    requires |s| < |level| + 2
    ensures ReplaceFirst(s, level, colored) == s
  {
  }

  /** With an occurrence, the splice is at the least index of one. */
  lemma ReplaceAtFirstMatch(s: string, level: string, colored: string, i: nat)
    requires OccursAt(s, Pattern(level), i)
    requires forall j :: 0 <= j < i ==> !OccursAt(s, Pattern(level), j)
    ensures ReplaceFirst(s, level, colored) == s[..i] + Pattern(colored) + s[i + |level| + 2..]
  {
  }

  /**
   * The pieces of a replacement: the prefix before the first match is kept, the
   * coloured token follows, and the rest of the input after the token is copied
   * verbatim; the length grows by |colored| - |level|.
   */
  lemma ReplacedPieces(s: string, level: string, colored: string, i: nat)
    requires OccursAt(s, Pattern(level), i)
    requires forall j :: 0 <= j < i ==> !OccursAt(s, Pattern(level), j)
    ensures var r := ReplaceFirst(s, level, colored);
      && |r| == |s| - |level| + |colored|
      && r[..i] == s[..i]
      && r[i..i + |colored| + 2] == Pattern(colored)
      && r[i + |colored| + 2..] == s[i + |level| + 2..]
  {
  }

  /** Only the first occurrence is replaced: every later one survives, shifted. */
  lemma LaterOccurrencesKept(s: string, level: string, colored: string, i: nat, j: nat)
    requires OccursAt(s, Pattern(level), i)
    requires forall k :: 0 <= k < i ==> !OccursAt(s, Pattern(level), k)
    requires i + |level| + 1 <= j && OccursAt(s, Pattern(level), j)
    ensures OccursAt(ReplaceFirst(s, level, colored), Pattern(level), j + |colored| - |level|)
  {
  }

  /** Every replacement either leaves the length alone or grows it by |colored| - |level|. */
  lemma ReplaceLength(s: string, level: string, colored: string)
    ensures var r := ReplaceFirst(s, level, colored);
      (r == s) || (|r| == |s| - |level| + |colored|)
  {
  }

  /** A level and the colour its word is printed in. */
  datatype LevelStyle = LevelStyle(level: string, color: string)

  /** The coloured form of a level: colour, level, reset. */
  function Colored(st: LevelStyle): string {
    st.color + st.level + Ansi.Reset
  }

  /** The replacements Write makes, in the order it makes them. */
  const LevelStyles := [
    LevelStyle("DEBUG", Ansi.Green),
    LevelStyle("INFO", Ansi.Cyan),
    LevelStyle("WARN", Ansi.Yellow),
    LevelStyle("ERROR", Ansi.Red)]

  /** Apply the replacements of `styles` in order, each to the result of the previous one. */
  function Colorize(msg: string, styles: seq<LevelStyle>): string
    decreases |styles|
  {
    if styles == [] then msg
    else Colorize(ReplaceFirst(msg, styles[0].level, Colored(styles[0])), styles[1..])
  }

  /** A message without any level token passes through unchanged. */
  lemma {:induction false} ColorizeWithoutLevels(msg: string, styles: seq<LevelStyle>)
    requires forall k, i :: 0 <= k < |styles| ==> !OccursAt(msg, Pattern(styles[k].level), i)
    ensures Colorize(msg, styles) == msg
  {
    if styles != [] {
      ReplaceWithoutMatch(msg, styles[0].level, Colored(styles[0]));
      assert forall k, i :: 0 <= k < |styles[1..]| ==> !OccursAt(msg, Pattern(styles[1..][k].level), i) by {
        forall k, i | 0 <= k < |styles[1..]|
          ensures !OccursAt(msg, Pattern(styles[1..][k].level), i)
        {
          assert styles[1..][k] == styles[k + 1];
        }
      }
      ColorizeWithoutLevels(msg, styles[1..]);
    }
  }

  /**
   * Each replacement adds the colour and reset codes (nine characters for the
   * styles Write uses) or nothing, so colouring only lengthens a line, by a
   * multiple of nine and at most once per level.
   */
  lemma {:induction false} ColorizeLength(msg: string, styles: seq<LevelStyle>)
    requires forall k :: 0 <= k < |styles| ==> |Colored(styles[k])| == |styles[k].level| + 9
    decreases |styles|
    ensures exists k :: 0 <= k <= |styles| && |Colorize(msg, styles)| == |msg| + 9 * k
  {
    if styles == [] {
      assert |Colorize(msg, styles)| == |msg| + 9 * 0;
    } else {
      var next := ReplaceFirst(msg, styles[0].level, Colored(styles[0]));
      ReplaceLength(msg, styles[0].level, Colored(styles[0]));
      assert |next| == |msg| || |next| == |msg| + 9;
      assert forall k :: 0 <= k < |styles[1..]| ==> |Colored(styles[1..][k])| == |styles[1..][k].level| + 9 by {
        forall k | 0 <= k < |styles[1..]|
          ensures |Colored(styles[1..][k])| == |styles[1..][k].level| + 9
        {
          assert styles[1..][k] == styles[k + 1];
        }
      }
      ColorizeLength(next, styles[1..]);
      var k :| 0 <= k <= |styles[1..]| && |Colorize(next, styles[1..])| == |next| + 9 * k;
      assert Colorize(msg, styles) == Colorize(next, styles[1..]);
      if |next| == |msg| {
        assert |Colorize(msg, styles)| == |msg| + 9 * k;
      } else {
        assert |Colorize(msg, styles)| == |msg| + 9 * (k + 1);
      }
    }
  }

  /** The styles Write uses each add nine characters. */
  lemma LevelStylesAddNine()
    ensures forall k :: 0 <= k < |LevelStyles| ==> |Colored(LevelStyles[k])| == |LevelStyles[k].level| + 9
  {
  }

  /** A line Write passes on is its input plus nine characters for each level it coloured. */
  lemma WriteLength(p: string)
    ensures exists k :: 0 <= k <= 4 && |Colorize(p, LevelStyles)| == |p| + 9 * k
  {
    LevelStylesAddNine();
    ColorizeLength(p, LevelStyles);
  }

  /** ColorWriter wraps a writer; `output` is everything written to it so far. */
  class ColorWriter {
    var output: string

    constructor ()
      ensures output == ""
    {
      output := "";
    }

    /** Write colours the four levels of `p`, in order, and passes the result on. */
    method Write(p: string)
      modifies this
      ensures output == old(output) + Colorize(p, LevelStyles)
    {
      var msg := p;
      msg := ReplaceLevel(msg, "DEBUG", Ansi.Green + "DEBUG" + Ansi.Reset);
      assert Colorize(p, LevelStyles) == Colorize(msg, LevelStyles[1..]);
      ghost var m1 := msg;
      msg := ReplaceLevel(msg, "INFO", Ansi.Cyan + "INFO" + Ansi.Reset);
      assert Colorize(m1, LevelStyles[1..]) == Colorize(msg, LevelStyles[2..]);
      ghost var m2 := msg;
      msg := ReplaceLevel(msg, "WARN", Ansi.Yellow + "WARN" + Ansi.Reset);
      assert Colorize(m2, LevelStyles[2..]) == Colorize(msg, LevelStyles[3..]);
      ghost var m3 := msg;
      msg := ReplaceLevel(msg, "ERROR", Ansi.Red + "ERROR" + Ansi.Reset);
      assert Colorize(m3, LevelStyles[3..]) == Colorize(msg, LevelStyles[4..]);
      output := output + msg;
    }
  }
}
