/** The parameter-sweep machinery shared by both benchmark drivers
    (NRC-Hpm-Bench/NRC_Hpm_Bench.py and WinBench/win_bench.py): the Cartesian
    product of option lists in `itertools.product` order, the serialisation of
    one tuple as `value + " "` per component, the config file written one line
    per tuple, Python's `readlines`, `strip` and `split`, and the executor that
    turns every stripped line into one renderer command. */
module Sweep {
  import opened Wrappers

  /** One hard-coded option list; option values are opaque text. */
  type Axis = seq<string>

  /** The file system the scripts see: file name to file content. */
  type Files = map<string, string>

  // ---------------------------------------------------------------------------
  // Cartesian product in odometer order
  // ---------------------------------------------------------------------------

  /** `itertools.product(*axes)`: the first axis is the outermost loop. */
  function Product(axes: seq<Axis>): seq<seq<string>>
  {
    if |axes| == 0 then [[]] else Prepend(axes[0], Product(axes[1..]))
  }

  /** Every option of `xs`, in order, put in front of every tail, in order. */
  function Prepend(xs: Axis, tails: seq<seq<string>>): seq<seq<string>>
  {
    if |xs| == 0 then [] else ConsAll(xs[0], tails) + Prepend(xs[1..], tails)
  }

  function ConsAll(x: string, tails: seq<seq<string>>): (r: seq<seq<string>>)
    ensures |r| == |tails|
    ensures forall i :: 0 <= i < |tails| ==> r[i] == [x] + tails[i]
  {
    seq(|tails|, i requires 0 <= i < |tails| => [x] + tails[i])
  }

  /** The product of the option-list lengths. */
  function LengthProduct(axes: seq<Axis>): nat
  {
    if |axes| == 0 then 1 else |axes[0]| * LengthProduct(axes[1..])
  }

  /** Peeling one axis off a suffix of the list. */
  lemma LengthProductStep(axes: seq<Axis>, i: nat, n: nat)
    requires i < |axes| && LengthProduct(axes[i + 1..]) == n
    ensures LengthProduct(axes[i..]) == |axes[i]| * n
  {
    assert axes[i..][1..] == axes[i + 1..];
  }

  /** A choice picks one option position per axis. */
  predicate IsChoice(axes: seq<Axis>, c: seq<nat>)
  {
    |c| == |axes| && forall i :: 0 <= i < |c| ==> c[i] < |axes[i]|
  }

  /** The tuple a choice selects. */
  function Pick(axes: seq<Axis>, c: seq<nat>): seq<string>
    requires IsChoice(axes, c)
  {
    seq(|c|, i requires 0 <= i < |c| => axes[i][c[i]])
  }

  /** The odometer reading of a choice: a mixed-radix number whose least
      significant digit is the LAST axis and whose most significant digit is
      the first axis. */
  function OdometerIndex(axes: seq<Axis>, c: seq<nat>): nat
    requires IsChoice(axes, c)
  {
    if |c| == 0 then 0
    else c[0] * LengthProduct(axes[1..]) + OdometerIndex(axes[1..], c[1..])
  }

  lemma {:induction false} PrependLength(xs: Axis, tails: seq<seq<string>>)
    ensures |Prepend(xs, tails)| == |xs| * |tails|
  {
    if |xs| > 0 {
      PrependLength(xs[1..], tails);
      assert |Prepend(xs, tails)| == |tails| + (|xs| - 1) * |tails|;
    }
  }

  lemma {:induction false} PrependAt(xs: Axis, tails: seq<seq<string>>, j: nat, t: nat)
    requires j < |xs| && t < |tails|
    ensures |Prepend(xs, tails)| == |xs| * |tails|
    ensures j * |tails| + t < |xs| * |tails|
    ensures Prepend(xs, tails)[j * |tails| + t] == [xs[j]] + tails[t]
  {
    PrependLength(xs, tails);
    if j == 0 {
      assert Prepend(xs, tails)[t] == ConsAll(xs[0], tails)[t];
    } else {
      PrependAt(xs[1..], tails, j - 1, t);
      var m := |tails|;
      assert j * m + t == m + ((j - 1) * m + t);
      assert Prepend(xs, tails)[j * m + t] == Prepend(xs[1..], tails)[(j - 1) * m + t];
    }
  }

  /** The number of generated tuples is the product of the list lengths. */
  lemma {:induction false} ProductLength(axes: seq<Axis>)
    ensures |Product(axes)| == LengthProduct(axes)
  {
    if |axes| > 0 {
      ProductLength(axes[1..]);
      PrependLength(axes[0], Product(axes[1..]));
    }
  }

  lemma MulMonotone(x: nat, y: nat, m: nat)
    requires x < y
    ensures x * m + m <= y * m
  {
    assert (x + 1) * m == x * m + m;
    assert (x + 1) * m <= y * m;
  }

  lemma {:induction false} OdometerIndexBound(axes: seq<Axis>, c: seq<nat>)
    requires IsChoice(axes, c)
    ensures OdometerIndex(axes, c) < LengthProduct(axes)
  {
    if |c| > 0 {
      assert IsChoice(axes[1..], c[1..]);
      OdometerIndexBound(axes[1..], c[1..]);
      var m := LengthProduct(axes[1..]);
      assert OdometerIndex(axes, c) == c[0] * m + OdometerIndex(axes[1..], c[1..]);
      assert LengthProduct(axes) == |axes[0]| * m;
      MulMonotone(c[0], |axes[0]|, m);
    }
  }

  /** Odometer order: the tuple selected by choice `c` is produced at position
      `OdometerIndex(axes, c)` of `itertools.product`. */
  lemma {:induction false} ProductAt(axes: seq<Axis>, c: seq<nat>)
    requires IsChoice(axes, c)
    ensures OdometerIndex(axes, c) < |Product(axes)|
    ensures Product(axes)[OdometerIndex(axes, c)] == Pick(axes, c)
  {
    ProductLength(axes);
    OdometerIndexBound(axes, c);
    if |c| > 0 {
      assert IsChoice(axes[1..], c[1..]);
      ProductAt(axes[1..], c[1..]);
      ProductLength(axes[1..]);
      PrependAt(axes[0], Product(axes[1..]), c[0], OdometerIndex(axes[1..], c[1..]));
      assert [axes[0][c[0]]] + Pick(axes[1..], c[1..]) == Pick(axes, c);
    }
  }

  /** The last axis varies fastest: advancing the last digit of a choice
      advances its position by exactly one. */
  lemma {:induction false} LastAxisFastest(axes: seq<Axis>, c: seq<nat>)
    requires IsChoice(axes, c) && |c| > 0 && c[|c| - 1] + 1 < |axes[|axes| - 1]|
    ensures IsChoice(axes, c[|c| - 1 := c[|c| - 1] + 1])
    ensures OdometerIndex(axes, c[|c| - 1 := c[|c| - 1] + 1]) == OdometerIndex(axes, c) + 1
  {
    var d := c[|c| - 1 := c[|c| - 1] + 1];
    if |c| > 1 {
      assert IsChoice(axes[1..], c[1..]);
      assert d[1..] == c[1..][|c| - 2 := c[|c| - 1] + 1];
      LastAxisFastest(axes[1..], c[1..]);
    }
  }

  /** Consecutive tuples of the product differ only in the last component
      while the last option list is not exhausted. */
  lemma NextOnLastAxis(axes: seq<Axis>, c: seq<nat>)
    requires IsChoice(axes, c) && |c| > 0 && c[|c| - 1] + 1 < |axes[|axes| - 1]|
    ensures OdometerIndex(axes, c) + 1 < |Product(axes)|
    ensures |Product(axes)[OdometerIndex(axes, c)]| == |axes|
    ensures var k, n := OdometerIndex(axes, c), |axes|;
      Product(axes)[k + 1] == Product(axes)[k][n - 1 := axes[n - 1][c[n - 1] + 1]]
  {
    var n := |c|;
    var d := c[n - 1 := c[n - 1] + 1];
    LastAxisFastest(axes, c);
    ProductAt(axes, c);
    ProductAt(axes, d);
    assert Pick(axes, d) == Pick(axes, c)[n - 1 := axes[n - 1][c[n - 1] + 1]];
  }

  /** The first axis varies slowest: advancing the first digit of a choice
      skips a whole block of every combination of the remaining axes. */
  lemma FirstAxisSlowest(axes: seq<Axis>, c: seq<nat>)
    requires IsChoice(axes, c) && |c| > 0 && c[0] + 1 < |axes[0]|
    ensures IsChoice(axes, c[0 := c[0] + 1])
    ensures OdometerIndex(axes, c[0 := c[0] + 1]) == OdometerIndex(axes, c) + LengthProduct(axes[1..])
  {
    var d := c[0 := c[0] + 1];
    assert d[1..] == c[1..];
    assert (c[0] + 1) * LengthProduct(axes[1..]) == c[0] * LengthProduct(axes[1..]) + LengthProduct(axes[1..]);
  }

  /** Advancing the digit of axis `i` advances the position by the number of
      tuples the later axes span. */
  lemma {:induction false} AxisStep(axes: seq<Axis>, c: seq<nat>, i: nat)
    requires IsChoice(axes, c) && i < |c| && c[i] + 1 < |axes[i]|
    ensures IsChoice(axes, c[i := c[i] + 1])
    ensures OdometerIndex(axes, c[i := c[i] + 1]) == OdometerIndex(axes, c) + LengthProduct(axes[i + 1..])
    decreases i
  {
    if i == 0 {
      FirstAxisSlowest(axes, c);
    } else {
      var d := c[i := c[i] + 1];
      assert IsChoice(axes[1..], c[1..]);
      assert d[1..] == c[1..][i - 1 := c[i] + 1];
      assert axes[1..][i..] == axes[i + 1..];
      AxisStep(axes[1..], c[1..], i - 1);
      assert IsChoice(axes, d);
    }
  }

  /** `AxisStep` with the span of the later axes given as `n`. */
  lemma AxisStepBy(axes: seq<Axis>, c: seq<nat>, i: nat, n: nat)
    requires IsChoice(axes, c) && i < |c| && c[i] + 1 < |axes[i]| && LengthProduct(axes[i + 1..]) == n
    ensures IsChoice(axes, c[i := c[i] + 1])
    ensures OdometerIndex(axes, c[i := c[i] + 1]) == OdometerIndex(axes, c) + n
  {
    AxisStep(axes, c, i);
  }

  /** Every entry of `Prepend(xs, tails)` is one option of `xs` in front of
      one tail. */
  lemma {:induction false} PrependMember(xs: Axis, tails: seq<seq<string>>, k: nat)
    returns (j: nat, t: nat)
    requires k < |Prepend(xs, tails)|
    ensures j < |xs| && t < |tails|
    ensures Prepend(xs, tails)[k] == [xs[j]] + tails[t]
  {
    if k < |tails| {
      j, t := 0, k;
    } else {
      var j', t' := PrependMember(xs[1..], tails, k - |tails|);
      j, t := j' + 1, t';
    }
  }

  /** Every generated tuple has one component per axis, taken from that axis. */
  lemma {:induction false} ProductMember(axes: seq<Axis>, k: nat)
    requires k < |Product(axes)|
    ensures |Product(axes)[k]| == |axes|
    ensures forall i :: 0 <= i < |axes| ==> Product(axes)[k][i] in axes[i]
  {
    if |axes| > 0 {
      var tails := Product(axes[1..]);
      var j, t := PrependMember(axes[0], tails, k);
      ProductMember(axes[1..], t);
      var tuple := Product(axes)[k];
      assert tuple == [axes[0][j]] + tails[t];
      forall i | 0 <= i < |axes|
        ensures tuple[i] in axes[i]
      {
        if i > 0 {
          assert tuple[i] == tails[t][i - 1];
          assert axes[1..][i - 1] == axes[i];
        }
      }
    }
  }

  // ---------------------------------------------------------------------------
  // Python whitespace, strip, split and readlines
  // ---------------------------------------------------------------------------

  /** Python's `str.isspace` for one character, the separators of
      `str.strip()` and `str.split()`: tab, line feed, vertical tab, form feed
      and carriage return, the four ASCII information separators, space, NEL,
      no-break space and the Unicode space, line and paragraph separators. */
  predicate IsSpace(ch: char)
  {
    var c := ch as int;
    0x09 <= c <= 0x0D || 0x1C <= c <= 0x20 || c == 0x85 || c == 0xA0 || c == 0x1680
    || 0x2000 <= c <= 0x200A || c == 0x2028 || c == 0x2029 || c == 0x202F || c == 0x205F
    || c == 0x3000
  }

  /** A token `split()` keeps in one piece. */
  predicate IsWord(w: string)
  {
    |w| > 0 && forall i :: 0 <= i < |w| ==> !IsSpace(w[i])
  }

  predicate AllWords(ws: seq<string>)
  {
    forall i :: 0 <= i < |ws| ==> IsWord(ws[i])
  }

  function StripLeft(s: string): string
  {
    if |s| > 0 && IsSpace(s[0]) then StripLeft(s[1..]) else s
  }

  function StripRight(s: string): string
  {
    if |s| > 0 && IsSpace(s[|s| - 1]) then StripRight(s[..|s| - 1]) else s
  }

  /** `str.strip()`. */
  function Strip(s: string): string
  {
    StripRight(StripLeft(s))
  }

  /** Length of the run of non-space characters at the start of `s`. */
  function WordLength(s: string): (n: nat)
    ensures n <= |s|
  {
    if |s| == 0 || IsSpace(s[0]) then 0 else 1 + WordLength(s[1..])
  }

  /** `str.split()` with no separator: maximal runs of non-space characters. */
  function Tokens(s: string): seq<string>
    decreases |s|
  {
    if |s| == 0 then []
    else if IsSpace(s[0]) then Tokens(s[1..])
    else
      var n := WordLength(s);
      [s[..n]] + Tokens(s[n..])
  }

  /** Length of the first line of `s`, its newline included. */
  function LineLength(s: string): (n: nat)
    ensures n <= |s|
    ensures |s| > 0 ==> n > 0
  {
    if |s| == 0 then 0 else if s[0] == '\n' then 1 else 1 + LineLength(s[1..])
  }

  /** The text split after every `"\n"`: every line keeps its newline; a last
      line without one is kept as it is. */
  function SplitLines(s: string): seq<string>
    decreases |s|
  {
    if |s| == 0 then [] else
      var n := LineLength(s);
      [s[..n]] + SplitLines(s[n..])
  }

  /** Python's universal newlines when reading a text file: `"\r\n"` and a
      lone `"\r"` each become `"\n"`. */
  function UniversalNewlines(s: string): (r: string)
    ensures NoReturn(r)
    decreases |s|
  {
    if |s| == 0 then ""
    else if s[0] == '\r' then
      var rest := if |s| > 1 && s[1] == '\n' then s[2..] else s[1..];
      "\n" + UniversalNewlines(rest)
    else [s[0]] + UniversalNewlines(s[1..])
  }

  /** `file.readlines()` on a file opened in text mode. */
  function ReadLines(s: string): seq<string>
  {
    SplitLines(UniversalNewlines(s))
  }

  predicate NoReturn(s: string)
  {
    forall i :: 0 <= i < |s| ==> s[i] != '\r'
  }

  /** Text without a line break of either kind. */
  predicate NoLineBreak(s: string)
  {
    forall i :: 0 <= i < |s| ==> s[i] != '\n' && s[i] != '\r'
  }

  /** Text without a carriage return reads back unchanged. */
  lemma {:induction false} UniversalNewlinesIdentity(s: string)
    requires NoReturn(s)
    ensures UniversalNewlines(s) == s
  {
    if |s| > 0 {
      UniversalNewlinesIdentity(s[1..]);
      assert s == [s[0]] + s[1..];
    }
  }

  /** A Windows line ending and an old Mac one both read as one line. */
  lemma ReadLinesCarriageReturns()
    ensures ReadLines("a\r\nb\rc") == ["a\n", "b\n", "c"]
  {
    var s := "a\r\nb\rc";
    assert s[1..] == "\r\nb\rc" && "\r\nb\rc"[2..] == "b\rc";
    assert "b\rc"[1..] == "\rc" && "\rc"[1..] == "c" && "c"[1..] == "";
    assert UniversalNewlines("c") == "c";
    assert UniversalNewlines("\rc") == "\nc";
    assert UniversalNewlines("b\rc") == "b\nc";
    assert UniversalNewlines("\r\nb\rc") == "\nb\nc";
    assert UniversalNewlines(s) == "a\nb\nc";
    var t := "a\nb\nc";
    assert LineLength(t[2..][2..]) == 1 && t[2..][2..] == "c";
    assert LineLength(t[2..]) == 2 && t[2..] == "b\nc";
    assert LineLength(t) == 2;
    assert t[..2] == "a\n" && t[2..][..2] == "b\n" && "c"[..1] == "c";
    assert SplitLines("c") == ["c"];
    assert SplitLines("b\nc") == ["b\n", "c"];
    assert SplitLines(t) == ["a\n", "b\n", "c"];
  }

  // ---------------------------------------------------------------------------
  // Serialisation of one configuration and of the config file
  // ---------------------------------------------------------------------------

  /** The concatenation of `str(v) + " "` over every component. */
  function Serialized(args: seq<string>): string
  {
    if |args| == 0 then "" else args[0] + " " + Serialized(args[1..])
  }

  /** The written file: every line followed by `"\n"`. */
  function ConfigFile(lines: seq<string>): string
  {
    if |lines| == 0 then "" else lines[0] + "\n" + ConfigFile(lines[1..])
  }

  /** Every tuple serialised, in order. */
  function SerializedAll(tuples: seq<seq<string>>): (r: seq<string>)
    ensures |r| == |tuples|
    ensures forall k :: 0 <= k < |tuples| ==> r[k] == Serialized(tuples[k])
  {
    seq(|tuples|, k requires 0 <= k < |tuples| => Serialized(tuples[k]))
  }

  lemma {:induction false} SerializedSnoc(args: seq<string>, v: string)
    ensures Serialized(args + [v]) == Serialized(args) + v + " "
  {
    if |args| > 0 {
      assert (args + [v])[1..] == args[1..] + [v];
      SerializedSnoc(args[1..], v);
    } else {
      assert args + [v] == [v];
    }
  }

  lemma {:induction false} ConfigFileSnoc(lines: seq<string>, l: string)
    ensures ConfigFile(lines + [l]) == ConfigFile(lines) + l + "\n"
  {
    if |lines| > 0 {
      assert (lines + [l])[1..] == lines[1..] + [l];
      ConfigFileSnoc(lines[1..], l);
    } else {
      assert lines + [l] == [l];
    }
  }

  /** A serialised non-empty tuple ends in exactly one space: the last value
      followed by `" "`. */
  lemma SerializedEnding(args: seq<string>)
    requires |args| > 0 && AllWords(args)
    ensures var s := Serialized(args);
      |s| >= 2 && s[|s| - 1] == ' ' && !IsSpace(s[|s| - 2])
      && s == Serialized(args[..|args| - 1]) + args[|args| - 1] + " "
  {
    var n := |args|;
    assert args == args[..n - 1] + [args[n - 1]];
    SerializedSnoc(args[..n - 1], args[n - 1]);
    var w := args[n - 1];
    assert IsWord(w);
    var s := Serialized(args);
    assert s[|s| - 2] == w[|w| - 1];
  }

  lemma {:induction false} WordLengthOfWord(w: string, rest: string)
    requires IsWord(w)
    ensures WordLength(w + " " + rest) == |w|
  {
    if |w| > 1 {
      assert (w + " " + rest)[1..] == w[1..] + " " + rest;
      WordLengthOfWord(w[1..], rest);
    } else {
      assert (w + " " + rest)[1..] == " " + rest;
    }
  }

  /** `split()` of a word, a space and anything: the word, then the rest. */
  lemma TokensOfWord(w: string, rest: string)
    requires IsWord(w)
    ensures Tokens(w + " " + rest) == [w] + Tokens(rest)
  {
    var s := w + " " + rest;
    WordLengthOfWord(w, rest);
    assert s[..|w|] == w;
    assert s[|w|..] == " " + rest;
    assert (" " + rest)[1..] == rest;
  }

  lemma {:induction false} TokensOfSerialized(args: seq<string>, rest: string)
    requires AllWords(args)
    ensures Tokens(Serialized(args) + rest) == args + Tokens(rest)
  {
    if |args| > 0 {
      assert AllWords(args[1..]);
      assert IsWord(args[0]);
      TokensOfSerialized(args[1..], rest);
      assert args == [args[0]] + args[1..];
      assert Serialized(args) + rest == args[0] + " " + (Serialized(args[1..]) + rest);
      TokensOfWord(args[0], Serialized(args[1..]) + rest);
    } else {
      assert Serialized(args) + rest == rest;
    }
  }

  lemma {:induction false} TokensOfSpaces(s: string)
    requires forall i :: 0 <= i < |s| ==> IsSpace(s[i])
    ensures Tokens(s) == []
  {
    if |s| > 0 {
      TokensOfSpaces(s[1..]);
    }
  }

  /** Splitting a written line on whitespace gives back exactly the tuple. */
  lemma LineTokens(args: seq<string>)
    requires AllWords(args)
    ensures Tokens(Serialized(args) + "\n") == args
  {
    TokensOfSerialized(args, "\n");
    TokensOfSpaces("\n");
  }

  lemma {:induction false} LineLengthOfLine(l: string, rest: string)
    requires NoLineBreak(l)
    ensures LineLength(l + "\n" + rest) == |l| + 1
  {
    if |l| > 0 {
      assert (l + "\n" + rest)[1..] == l[1..] + "\n" + rest;
      LineLengthOfLine(l[1..], rest);
    }
  }

  /** Splitting the written file after its newlines gives every line with
      its newline. */
  lemma {:induction false} SplitLinesOfConfigFile(lines: seq<string>)
    requires forall k :: 0 <= k < |lines| ==> NoLineBreak(lines[k])
    ensures |SplitLines(ConfigFile(lines))| == |lines|
    ensures forall k :: 0 <= k < |lines| ==> SplitLines(ConfigFile(lines))[k] == lines[k] + "\n"
  {
    if |lines| > 0 {
      var rest := ConfigFile(lines[1..]);
      var s := ConfigFile(lines);
      LineLengthOfLine(lines[0], rest);
      assert s[..|lines[0]| + 1] == lines[0] + "\n";
      assert s[|lines[0]| + 1..] == rest;
      SplitLinesOfConfigFile(lines[1..]);
      assert SplitLines(s) == [lines[0] + "\n"] + SplitLines(rest);
    }
  }

  /** The written file holds no carriage return when its lines hold none. */
  lemma {:induction false} ConfigFileNoReturn(lines: seq<string>)
    requires forall k :: 0 <= k < |lines| ==> NoLineBreak(lines[k])
    ensures NoReturn(ConfigFile(lines))
  {
    if |lines| > 0 {
      ConfigFileNoReturn(lines[1..]);
      var l, rest := lines[0], ConfigFile(lines[1..]);
      assert ConfigFile(lines) == l + "\n" + rest;
      assert NoLineBreak(l);
      forall i | 0 <= i < |ConfigFile(lines)| ensures ConfigFile(lines)[i] != '\r' {
        if i < |l| {
          assert ConfigFile(lines)[i] == l[i];
        } else if i > |l| {
          assert ConfigFile(lines)[i] == rest[i - |l| - 1];
        }
      }
    }
  }

  /** Reading back the written file gives every line with its newline. */
  lemma ReadLinesOfConfigFile(lines: seq<string>)
    requires forall k :: 0 <= k < |lines| ==> NoLineBreak(lines[k])
    ensures |ReadLines(ConfigFile(lines))| == |lines|
    ensures forall k :: 0 <= k < |lines| ==> ReadLines(ConfigFile(lines))[k] == lines[k] + "\n"
  {
    ConfigFileNoReturn(lines);
    UniversalNewlinesIdentity(ConfigFile(lines));
    SplitLinesOfConfigFile(lines);
  }

  lemma {:induction false} StripLeftOfWordStart(s: string)
    requires |s| > 0 && !IsSpace(s[0])
    ensures StripLeft(s) == s
  {
  }

  lemma {:induction false} StripRightOfWordEnd(s: string)
    requires |s| > 0 && !IsSpace(s[|s| - 1])
    ensures StripRight(s) == s
  {
  }

  /** The text of a line without its trailing space: what the executor passes
      on after `strip()`. */
  function Joined(args: seq<string>): (r: string)
    requires |args| > 0 && AllWords(args)
    ensures r + " " == Serialized(args)
  {
    SerializedEnding(args);
    var s := Serialized(args);
    s[..|s| - 1]
  }

  /** Stripping a written line removes its newline and its trailing space and
      nothing else. */
  lemma StripLine(args: seq<string>)
    requires |args| > 0 && AllWords(args)
    ensures Strip(Serialized(args) + "\n") == Joined(args)
  {
    var s := Serialized(args);
    SerializedEnding(args);
    assert IsWord(args[0]);
    assert s[0] == args[0][0];
    var line := s + "\n";
    StripLeftOfWordStart(line);
    assert StripRight(line) == StripRight(s) by {
      assert line[..|line| - 1] == s;
    }
    assert StripRight(s) == StripRight(s[..|s| - 1]);
    StripRightOfWordEnd(s[..|s| - 1]);
  }

  /** Splitting the stripped line also gives back exactly the tuple. */
  lemma JoinedTokens(args: seq<string>)
    requires |args| > 0 && AllWords(args)
    ensures Tokens(Joined(args)) == args
  {
    var j := Joined(args);
    TokensOfSerialized(args, "");
    assert Serialized(args) + "" == j + " ";
    assert args + Tokens("") == args;
    TokensOfTrailingSpace(j);
  }

  lemma {:induction false} TokensOfTrailingSpace(s: string)
    ensures Tokens(s + " ") == Tokens(s)
    decreases |s|
  {
    if |s| == 0 {
      assert Tokens(" ") == Tokens("");
    } else if IsSpace(s[0]) {
      assert (s + " ")[1..] == s[1..] + " ";
      TokensOfTrailingSpace(s[1..]);
    } else {
      var n := WordLength(s);
      WordLengthAppendSpace(s);
      assert (s + " ")[..n] == s[..n];
      assert (s + " ")[n..] == s[n..] + " ";
      TokensOfTrailingSpace(s[n..]);
    }
  }

  lemma {:induction false} WordLengthAppendSpace(s: string)
    ensures WordLength(s + " ") == WordLength(s)
  {
    if |s| > 0 && !IsSpace(s[0]) {
      assert (s + " ")[1..] == s[1..] + " ";
      WordLengthAppendSpace(s[1..]);
    }
  }

  // ---------------------------------------------------------------------------
  // The generator and the executor
  // ---------------------------------------------------------------------------

  /** The list entry Python keeps at each position: first the product tuple,
      then, once its turn has come, the serialised string that replaced it. */
  datatype Entry = Tuple(values: seq<string>) | Text(line: string)

  /** One renderer run: its position in the file and the shell command. */
  datatype Run = Run(index: nat, command: string)

  const RENDERER := "NRC-HPM-Renderer"

  /** `execute_config`: the command handed to `os.system`. */
  function Command(arguments: string): (c: string)
    ensures |c| == |RENDERER| + 1 + |arguments|
    ensures c[..|RENDERER|] == RENDERER && c[|RENDERER|] == ' ' && c[|RENDERER| + 1..] == arguments
  {
    RENDERER + " " + arguments
  }

  /** Python's `split()` of a command gives the renderer name followed by the
      tuple's values, one token per value. */
  lemma CommandTokens(args: seq<string>)
    requires |args| > 0 && AllWords(args)
    ensures Tokens(Command(Joined(args))) == [RENDERER] + args
  {
    assert IsWord(RENDERER);
    TokensOfWord(RENDERER, Joined(args));
    JoinedTokens(args);
  }

  /** The inner loop of the generator: `arguments_str += str(arg) + " "`. */
  method SerializeArguments(arguments: seq<string>) returns (argumentsStr: string)
    ensures argumentsStr == Serialized(arguments)
  {
    argumentsStr := "";
    for i := 0 to |arguments|
      invariant argumentsStr == Serialized(arguments[..i])
    {
      assert arguments[..i + 1] == arguments[..i] + [arguments[i]];
      SerializedSnoc(arguments[..i], arguments[i]);
      argumentsStr := argumentsStr + arguments[i] + " ";
    }
    assert arguments[..|arguments|] == arguments;
  }

  lemma SerializedAllSnoc(tuples: seq<seq<string>>, index: nat)
    requires index < |tuples|
    ensures SerializedAll(tuples[..index + 1]) == SerializedAll(tuples[..index]) + [Serialized(tuples[index])]
  {
    var left, right := SerializedAll(tuples[..index + 1]), SerializedAll(tuples[..index]) + [Serialized(tuples[index])];
    assert forall k :: 0 <= k < |left| ==> left[k] == right[k];
  }

  /** Replacing entry `index` by its serialised string moves the boundary
      between serialised and pending entries by one. */
  lemma ReplaceStep(entries: seq<Entry>, tuples: seq<seq<string>>, index: nat)
    requires |entries| == |tuples| && index < |tuples|
    requires forall k :: 0 <= k < index ==> entries[k] == Text(Serialized(tuples[k]))
    requires forall k :: index <= k < |tuples| ==> entries[k] == Tuple(tuples[k])
    ensures forall k :: 0 <= k < index + 1 ==>
      entries[index := Text(Serialized(tuples[index]))][k] == Text(Serialized(tuples[k]))
    ensures forall k :: index + 1 <= k < |tuples| ==>
      entries[index := Text(Serialized(tuples[index]))][k] == Tuple(tuples[k])
  {
  }

  /** The generator body shared by `generate_configs` and
      `generate_stage1_configs`: returns the number of tuples it reports and
      the content it writes. Every list entry is replaced, at its turn, by its
      serialised string, and no other entry changes at that step. */
  method WriteConfigs(axes: seq<Axis>) returns (count: nat, content: string)
    ensures count == LengthProduct(axes)
    ensures content == ConfigFile(SerializedAll(Product(axes)))
  {
    var tuples := Product(axes);
    ProductLength(axes);
    var argumentsList := seq(|tuples|, i requires 0 <= i < |tuples| => Tuple(tuples[i]));
    count := |argumentsList|;
    content := "";
    for index := 0 to |argumentsList|
      invariant |argumentsList| == |tuples|
      invariant forall k :: 0 <= k < index ==> argumentsList[k] == Text(Serialized(tuples[k]))
      invariant forall k :: index <= k < |tuples| ==> argumentsList[k] == Tuple(tuples[k])
      invariant content == ConfigFile(SerializedAll(tuples[..index]))
    {
      var argumentsStr := SerializeArguments(argumentsList[index].values);
      assert argumentsStr == Serialized(tuples[index]);
      ReplaceStep(argumentsList, tuples, index);
      argumentsList := argumentsList[index := Text(argumentsStr)];
      SerializedAllSnoc(tuples, index);
      ConfigFileSnoc(SerializedAll(tuples[..index]), argumentsStr);
      content := content + argumentsStr + "\n";
    }
    assert tuples[..|tuples|] == tuples;
  }

  /** `execute_config(index, arguments)`, without the timing. */
  method ExecuteConfig(index: nat, arguments: string) returns (run: Run)
    ensures run == Run(index, Command(arguments))
  {
    run := Run(index, Command(arguments));
  }

  /** The runs the executor performs for the lines it read, in file order. */
  function RunsOf(lines: seq<string>): (runs: seq<Run>)
    ensures |runs| == |lines|
  {
    seq(|lines|, k requires 0 <= k < |lines| => Run(k, Command(Strip(lines[k]))))
  }

  /** Writing one file leaves every other file as it was. */
  lemma OtherEntryKept(files: Files, written: string, name: string, content: string)
    requires name != written
    ensures name in files[written := content] <==> name in files
    ensures name in files ==> files[written := content][name] == files[name]
  {
  }

  /** Runs listed one per line, in file order, are the runs of those lines. */
  lemma RunsAreRunsOf(runs: seq<Run>, lines: seq<string>)
    requires |runs| == |lines|
    requires forall k :: 0 <= k < |runs| ==> runs[k] == Run(k, Command(Strip(lines[k])))
    ensures runs == RunsOf(lines)
  {
  }

  /** `execute_configs` reading `fileName`: a missing file aborts the script;
      otherwise every line is stripped, replaced in the list by its stripped
      form, and run in file order with its position as index. */
  method ExecuteConfigs(files: Files, fileName: string) returns (r: Outcome<seq<Run>>)
    ensures fileName !in files <==> r.Err?
    ensures r.Ok? ==> |r.value| == |ReadLines(files[fileName])|
    ensures r.Ok? ==> forall k :: 0 <= k < |r.value| ==>
      r.value[k] == Run(k, Command(Strip(ReadLines(files[fileName])[k])))
  {
    if fileName !in files {
      return Err("No such file or directory: '" + fileName + "'");
    }
    var argumentsList := ReadLines(files[fileName]);
    ghost var read := argumentsList;
    var runs: seq<Run> := [];
    for index := 0 to |argumentsList|
      invariant |argumentsList| == |read|
      invariant forall k :: 0 <= k < index ==> argumentsList[k] == Strip(read[k])
      invariant forall k :: index <= k < |read| ==> argumentsList[k] == read[k]
      invariant |runs| == index
      invariant forall k :: 0 <= k < index ==> runs[k] == Run(k, Command(Strip(read[k])))
    {
      var arguments := Strip(argumentsList[index]);
      argumentsList := argumentsList[index := arguments];
      var run := ExecuteConfig(index, arguments);
      runs := runs + [run];
    }
    return Ok(runs);
  }

  /** The whole round trip: the file the generator writes, read back by the
      executor, yields one run per tuple, in product order, whose command is
      the renderer followed by the tuple's values separated by single spaces. */
  lemma RoundTrip(axes: seq<Axis>)
    requires forall i :: 0 <= i < |axes| ==> AllWords(axes[i])
    requires |axes| > 0
    ensures var runs := RunsOf(ReadLines(ConfigFile(SerializedAll(Product(axes)))));
      |runs| == |Product(axes)| == LengthProduct(axes)
      && forall k :: 0 <= k < |runs| ==>
           AllWords(Product(axes)[k]) && |Product(axes)[k]| == |axes|
           && runs[k] == Run(k, Command(Joined(Product(axes)[k])))
           && Tokens(Joined(Product(axes)[k])) == Product(axes)[k]
  {
    var tuples := Product(axes);
    var lines := SerializedAll(tuples);
    ProductLength(axes);
    forall k | 0 <= k < |tuples|
      ensures AllWords(tuples[k]) && |tuples[k]| == |axes|
      ensures NoLineBreak(lines[k])
    {
      ProductMember(axes, k);
      forall i | 0 <= i < |axes| ensures IsWord(tuples[k][i]) {
        assert tuples[k][i] in axes[i];
      }
      SerializedNoLineBreak(tuples[k]);
    }
    ReadLinesOfConfigFile(lines);
    var runs := RunsOf(ReadLines(ConfigFile(lines)));
    forall k | 0 <= k < |runs|
      ensures runs[k] == Run(k, Command(Joined(tuples[k])))
      ensures Tokens(Joined(tuples[k])) == tuples[k]
    {
      StripLine(tuples[k]);
      JoinedTokens(tuples[k]);
    }
  }

  /** The generated file reads back as one line per tuple. */
  lemma GeneratedLineCount(axes: seq<Axis>)
    requires forall i :: 0 <= i < |axes| ==> AllWords(axes[i])
    requires |axes| > 0
    ensures |ReadLines(ConfigFile(SerializedAll(Product(axes))))| == LengthProduct(axes)
  {
    RoundTrip(axes);
  }

  lemma {:induction false} SerializedNoLineBreak(args: seq<string>)
    requires AllWords(args)
    ensures NoLineBreak(Serialized(args))
  {
    if |args| > 0 {
      SerializedNoLineBreak(args[1..]);
      assert Serialized(args) == args[0] + " " + Serialized(args[1..]);
      assert IsWord(args[0]);
    }
  }

  /** An empty config file gives zero runs and no error. */
  lemma EmptyFileNoRuns(files: Files, fileName: string)
    requires fileName in files && files[fileName] == ""
    ensures RunsOf(ReadLines(files[fileName])) == []
  {
  }
}
