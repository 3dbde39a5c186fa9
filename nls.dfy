/**
 * The rewrite of the profile's English NLS file that the controller performs
 * after collecting preset names (`_update_preset_nls`).
 *
 * The file is modelled as its text. Opening it for reading translates
 * `"\r\n"` and a lone `'\r'` into `'\n'` (`Universal`); reading then splits
 * the text into lines that keep their `'\n'` (`readlines`); writing
 * concatenates lines (`writelines`). A missing file reads like an empty one.
 */
module Nls {
  import opened Options
  import opened Text
  import opened Json

  // ---------------------------------------------------------------------
  // Lines of a text file.
  // ---------------------------------------------------------------------

  /** A complete line: it ends with its only newline. */
  predicate IsLine(l: string) {
    |l| > 0 && l[|l| - 1] == '\n' && '\n' !in l[..|l| - 1]
  }

  predicate AllLines(ls: seq<string>) {
    forall k :: 0 <= k < |ls| ==> IsLine(ls[k])
  }

  /** A text that is empty or ends with a newline: no unterminated last line. */
  predicate Terminated(s: string) {
    s == "" || s[|s| - 1] == '\n'
  }

  /** The text a file opened for reading in text mode yields: every `"\r\n"`
      and every other `'\r'` reads as `'\n'`. */
  function Universal(s: string): (r: string)
    ensures '\r' !in r
    ensures '\r' !in s ==> r == s
    ensures |r| <= |s|
    ensures '\n' in s ==> '\n' in r
    decreases |s|
  {
    if s == [] then []
    else if s[0] == '\r' then
      if |s| > 1 && s[1] == '\n' then "\n" + Universal(s[2..]) else "\n" + Universal(s[1..])
    else [s[0]] + Universal(s[1..])
  }

  /** `f.readlines()` on the text of a file opened for reading. */
  function ReadLines(s: string): (ls: seq<string>)
    decreases |s|
  {
    if s == "" then []
    else if '\n' in s then
      var i := IndexOf(s, '\n');
      [s[..i + 1]] + ReadLines(s[i + 1..])
    else [s]
  }

  /** `f.writelines(ls)`: the lines one after the other. */
  function Concat(ls: seq<string>): string {
    if ls == [] then "" else ls[0] + Concat(ls[1..])
  }

  lemma {:induction false} ConcatAppend(a: seq<string>, b: seq<string>)
    ensures Concat(a + b) == Concat(a) + Concat(b)
  {
    if a != [] {
      assert (a + b)[0] == a[0] && (a + b)[1..] == a[1..] + b;
      ConcatAppend(a[1..], b);
      assert Concat(a + b) == a[0] + (Concat(a[1..]) + Concat(b));
      assert a[0] + (Concat(a[1..]) + Concat(b)) == (a[0] + Concat(a[1..])) + Concat(b);
    } else {
      assert a + b == b;
    }
  }

  /** Reading back what was written as complete lines gives those lines. */
  lemma {:induction false} ReadConcat(ls: seq<string>)
    requires AllLines(ls)
    ensures ReadLines(Concat(ls)) == ls
  {
    if ls != [] {
      var l := ls[0];
      var s := Concat(ls);
      assert s == l + Concat(ls[1..]);
      assert s[|l| - 1] == '\n';
      var i := IndexOf(s, '\n');
      assert forall k :: 0 <= k < |l| - 1 ==> s[k] == l[..|l| - 1][k];
      assert i == |l| - 1;
      assert s[..i + 1] == l;
      assert s[i + 1..] == Concat(ls[1..]);
      ReadConcat(ls[1..]);
    }
  }

  /**
   * The first line read from a nonempty terminated text runs up to and
   * including its first newline; what follows is terminated too.
   */
  lemma FirstLine(s: string) returns (line: string, rest: string)
    requires Terminated(s) && s != ""
    ensures s == line + rest && IsLine(line) && Terminated(rest) && |rest| < |s|
    ensures ReadLines(s) == [line] + ReadLines(rest)
  {
    assert s[|s| - 1] == '\n';
    var i := IndexOf(s, '\n');
    line, rest := s[..i + 1], s[i + 1..];
    assert line[..i] == s[..i];
    assert rest == "" || rest[|rest| - 1] == s[|s| - 1];
  }

  lemma ConcatCons(l: string, ls: seq<string>)
    ensures Concat([l] + ls) == l + Concat(ls)
  {
    assert ([l] + ls)[1..] == ls;
  }

  lemma AllLinesCons(l: string, ls: seq<string>)
    requires IsLine(l) && AllLines(ls)
    ensures AllLines([l] + ls)
  {
    assert forall k :: 1 <= k < |ls| + 1 ==> ([l] + ls)[k] == ls[k - 1];
  }

  /** A terminated text reads as complete lines, which write it back unchanged. */
  lemma {:induction false} ReadTerminated(s: string)
    requires Terminated(s)
    ensures AllLines(ReadLines(s))
    ensures Concat(ReadLines(s)) == s
    decreases |s|
  {
    if s != "" {
      var line, rest := FirstLine(s);
      ReadTerminated(rest);
      ConcatCons(line, ReadLines(rest));
      AllLinesCons(line, ReadLines(rest));
    }
  }

  // ---------------------------------------------------------------------
  // The preset block.
  // ---------------------------------------------------------------------

  const Prefix: string := "PRESET_"

  /** The one string the block starts with: a blank line, then a comment line. */
  const HeaderText: string := "\n# WLED Presets (auto-generated)\n"

  /** The comment line of the header, as it reads back from the file. */
  const HeaderLine: string := "# WLED Presets (auto-generated)\n"

  lemma HeaderLines()
    ensures HeaderText == Concat(["\n", HeaderLine])
    ensures IsLine("\n") && IsLine(HeaderLine)
    ensures !StartsWith("\n", Prefix) && !StartsWith(HeaderLine, Prefix)
  {
    assert Concat(["\n", HeaderLine]) == "\n" + Concat([HeaderLine]);
    assert Concat([HeaderLine]) == HeaderLine + Concat([]);
    assert HeaderLine[..|HeaderLine| - 1] == "# WLED Presets (auto-generated)";
    assert forall k :: 0 <= k < |HeaderLine| - 1 ==> HeaderLine[k] != '\n';
    assert HeaderLine[0] != Prefix[0];
  }

  /** The name sanitised for NLS: `'"'` becomes `"'"`, a newline a space. */
  function SafeName(name: string): (r: string)
    ensures |r| == |name|
    ensures '"' !in r && '\n' !in r
    ensures forall k :: 0 <= k < |name| ==>
      r[k] == (if name[k] == '"' then '\'' else if name[k] == '\n' then ' ' else name[k])
  {
    var a := ReplaceAll(name, "\"", "'");
    ReplaceCharLength(name, '"', '\'');
    ReplaceCharLength(a, '\n', ' ');
    var r := ReplaceAll(a, "\n", " ");
    assert forall k :: 0 <= k < |r| ==> r[k] != '"' && r[k] != '\n';
    r
  }

  lemma IntHasNoNewline(id: int)
    ensures '\n' !in IntToString(id)
  {
    var r := IntToString(id);
    assert forall k :: 0 <= k < |r| ==> r[k] != '\n';
  }

  function PresetLine(id: int, name: string): (l: string)
    ensures IsLine(l) && StartsWith(l, Prefix)
  {
    var body := Prefix + IntToString(id) + " = " + SafeName(name);
    IntHasNoNewline(id);
    assert '\n' !in Prefix && '\n' !in " = ";
    var l := body + "\n";
    assert l[..|l| - 1] == body;
    assert l[..|Prefix|] == Prefix;
    l
  }

  /** A set other than the empty one has an element. */
  lemma HasElement(s: set<int>)
    requires s != {}
    ensures exists x :: x in s
  {
    if forall x :: x !in s {
      assert false;
    }
  }

  predicate IsLeast(m: int, s: set<int>) {
    m in s && forall y :: y in s ==> m <= y
  }

  /** The least element of a non-empty finite set of integers exists. */
  lemma {:induction false} HasLeast(s: set<int>)
    requires s != {}
    ensures exists m :: IsLeast(m, s)
    decreases |s|
  {
    HasElement(s);
    var x :| x in s;
    var t := s - {x};
    if t == {} {
      assert IsLeast(x, s) by {
        forall y | y in s ensures x <= y {
          assert y == x || y in t;
        }
      }
    } else {
      HasLeast(t);
      var m :| IsLeast(m, t);
      var r := if x < m then x else m;
      assert IsLeast(r, s) by {
        forall y | y in s ensures r <= y {
          if y != x { assert y in t; }
        }
      }
    }
  }

  function Least(s: set<int>): (m: int)
    requires s != {}
    ensures IsLeast(m, s)
  {
    HasLeast(s);
    var m :| IsLeast(m, s);
    m
  }

  /** `sorted(keys)`: the keys of the set, each once, in ascending order. */
  function Sorted(s: set<int>): (ks: seq<int>)
    ensures |ks| == |s|
    ensures forall k :: k in ks <==> k in s
    decreases |s|
  {
    if s == {} then []
    else
      var m := Least(s);
      [m] + Sorted(s - {m})
  }

  /** The keys come out in ascending order. */
  lemma {:induction false} SortedAscending(s: set<int>)
    ensures forall i, j :: 0 <= i < j < |Sorted(s)| ==> Sorted(s)[i] < Sorted(s)[j]
    decreases |s|
  {
    if s != {} {
      var m := Least(s);
      var rest := Sorted(s - {m});
      SortedAscending(s - {m});
      var out := Sorted(s);
      assert out == [m] + rest;
      forall i | 0 <= i < |rest|
        ensures m < rest[i]
      {
        assert rest[i] in s - {m};
      }
      forall i, j | 0 <= i < j < |out|
        ensures out[i] < out[j]
      {
        assert out[j] == rest[j - 1];
        if i > 0 {
          assert out[i] == rest[i - 1];
        }
      }
    }
  }

  /**
   * The preset lines for the given ids, in that order; `None` when a name is
   * not a string (`.replace` raises, and the file is not written).
   */
  function PresetLinesFor(ids: seq<int>, presets: map<int, Json>): (r: Option<seq<string>>)
    requires forall i :: 0 <= i < |ids| ==> ids[i] in presets
    ensures r.Some? <==> forall i :: 0 <= i < |ids| ==> presets[ids[i]].Str?
    ensures r.Some? ==> |r.value| == |ids|
    ensures r.Some? ==> forall i :: 0 <= i < |ids| ==> r.value[i] == PresetLine(ids[i], presets[ids[i]].s)
  {
    if ids == [] then Some([])
    else
      var n := presets[ids[0]];
      assert forall i :: 1 <= i < |ids| ==> ids[i] == ids[1..][i - 1];
      match PresetLinesFor(ids[1..], presets)
      case None => None
      case Some(rest) =>
        if n.Str? then Some([PresetLine(ids[0], n.s)] + rest) else None
  }

  /** One line per preset, in ascending id order. */
  function PresetLines(presets: map<int, Json>): (r: Option<seq<string>>)
    ensures r.Some? <==> forall id :: id in presets ==> presets[id].Str?
  {
    var ids := Sorted(presets.Keys);
    var r := PresetLinesFor(ids, presets);
    assert (forall id :: id in presets ==> presets[id].Str?) ==> r.Some?;
    assert r.Some? ==> forall id :: id in presets ==> presets[id].Str? by {
      if r.Some? {
        forall id | id in presets
          ensures presets[id].Str?
        {
          var i :| 0 <= i < |ids| && ids[i] == id;
        }
      }
    }
    r
  }

  /** Every preset line is a complete line starting with `PRESET_`. */
  lemma PresetLinesShape(presets: map<int, Json>)
    requires PresetLines(presets).Some?
    ensures AllLines(PresetLines(presets).value)
    ensures forall k :: 0 <= k < |PresetLines(presets).value| ==> StartsWith(PresetLines(presets).value[k], Prefix)
  {
  }

  /** The lines of the block, ordered by id: the line for `ids[i]` names preset `ids[i]`. */
  lemma PresetLinesOrder(presets: map<int, Json>)
    requires PresetLines(presets).Some?
    ensures var ls := PresetLines(presets).value; var ids := Sorted(presets.Keys);
            && |ls| == |presets|
            && (forall i :: 0 <= i < |ls| ==> ls[i] == PresetLine(ids[i], presets[ids[i]].s))
            && (forall i, j :: 0 <= i < j < |ls| ==> ids[i] < ids[j])
  {
    SortedAscending(presets.Keys);
  }

  /** The block a rewrite appends, as the lines of the file: the blank line,
      the comment line, then the preset lines. */
  function Block(pl: seq<string>): seq<string> {
    ["\n", HeaderLine] + pl
  }

  /** What `writelines` puts down for the block is the text of those lines. */
  lemma BlockText(pl: seq<string>)
    ensures Concat([HeaderText] + pl) == Concat(Block(pl))
  {
    HeaderLines();
    ConcatAppend([HeaderText], pl);
    ConcatAppend(["\n", HeaderLine], pl);
    assert Concat([HeaderText]) == HeaderText + Concat([]);
  }

  /** Complete lines followed by a block of preset lines read back as themselves. */
  lemma ReadBack(kept: seq<string>, pl: seq<string>)
    requires AllLines(kept) && AllLines(pl)
    ensures ReadLines(Concat(kept) + Concat([HeaderText] + pl)) == kept + Block(pl)
  {
    HeaderLines();
    BlockText(pl);
    ConcatAppend(kept, Block(pl));
    var all := kept + Block(pl);
    assert AllLines(all) by {
      forall k | 0 <= k < |all|
        ensures IsLine(all[k])
      {
        if k >= |kept| + 2 {
          assert all[k] == pl[k - |kept| - 2];
        } else if k >= |kept| {
          assert all[k] == Block(pl)[k - |kept|];
        }
      }
    }
    ReadConcat(all);
  }

  // ---------------------------------------------------------------------
  // The rewrite as written.
  // ---------------------------------------------------------------------

  /** The lines kept from the old file: those that do not start with `PRESET_`, in order. */
  function WithoutPresets(ls: seq<string>): seq<string> {
    if |ls| == 0 then []
    else (if StartsWith(ls[0], Prefix) then [] else [ls[0]]) + WithoutPresets(ls[1..])
  }

  /** A line is kept exactly when it was in the file and is not a preset line. */
  lemma {:induction false} WithoutPresetsMembers(ls: seq<string>)
    ensures forall l :: l in WithoutPresets(ls) <==> l in ls && !StartsWith(l, Prefix)
  {
    if |ls| > 0 {
      WithoutPresetsMembers(ls[1..]);
      assert ls == [ls[0]] + ls[1..];
    }
  }

  /** The kept lines, in order, are the lines of the file that are not preset lines. */
  lemma {:induction false} WithoutPresetsShape(ls: seq<string>)
    ensures |WithoutPresets(ls)| <= |ls|
    ensures forall k :: 0 <= k < |WithoutPresets(ls)| ==> !StartsWith(WithoutPresets(ls)[k], Prefix)
    ensures AllLines(ls) ==> AllLines(WithoutPresets(ls))
  {
    if |ls| > 0 {
      WithoutPresetsShape(ls[1..]);
    }
  }

  lemma {:induction false} WithoutPresetsAppend(a: seq<string>, b: seq<string>)
    ensures WithoutPresets(a + b) == WithoutPresets(a) + WithoutPresets(b)
  {
    if |a| > 0 {
      assert (a + b)[0] == a[0] && (a + b)[1..] == a[1..] + b;
      WithoutPresetsAppend(a[1..], b);
    } else {
      assert a + b == b;
    }
  }

  lemma {:induction false} WithoutPresetsKeeps(ls: seq<string>)
    requires forall k :: 0 <= k < |ls| ==> !StartsWith(ls[k], Prefix)
    ensures WithoutPresets(ls) == ls
  {
    if |ls| > 0 {
      WithoutPresetsKeeps(ls[1..]);
    }
  }

  lemma {:induction false} WithoutPresetsDrops(ls: seq<string>)
    requires forall k :: 0 <= k < |ls| ==> StartsWith(ls[k], Prefix)
    ensures WithoutPresets(ls) == []
  {
    if |ls| > 0 {
      WithoutPresetsDrops(ls[1..]);
    }
  }

  /**
   * The new text of the file: the kept lines, then the header and one line
   * per preset; `None` when the file is left as it was.
   */
  function Rewrite(text: string, presets: map<int, Json>): (r: Option<string>)
    ensures r.Some? <==> PresetLines(presets).Some?
  {
    match PresetLines(presets)
    case None => None
    case Some(pl) => Some(Concat(WithoutPresets(ReadLines(text))) + Concat([HeaderText] + pl))
  }

  /** Read back after a rewrite, the file holds the kept lines and the new block:
      every old `PRESET_` line is gone and every other old line is still there, in order. */
  lemma RewriteReplacesPresets(text: string, presets: map<int, Json>)
    requires Terminated(text) && PresetLines(presets).Some?
    ensures ReadLines(Rewrite(text, presets).value)
            == WithoutPresets(ReadLines(text)) + Block(PresetLines(presets).value)
  {
    ReadTerminated(text);
    WithoutPresetsShape(ReadLines(text));
    PresetLinesShape(presets);
    ReadBack(WithoutPresets(ReadLines(text)), PresetLines(presets).value);
  }

  /** Of a block only the header survives the filter. */
  lemma WithoutPresetsOfBlock(pl: seq<string>)
    requires forall k :: 0 <= k < |pl| ==> StartsWith(pl[k], Prefix)
    ensures WithoutPresets(Block(pl)) == ["\n", HeaderLine]
  {
    HeaderLines();
    var b := Block(pl);
    assert b[1..] == [HeaderLine] + pl;
    assert b[1..][1..] == pl;
    WithoutPresetsDrops(pl);
  }

  /** Filtering the read-back file again removes only the new preset lines. */
  lemma KeptAgain(kept: seq<string>, pl: seq<string>)
    requires forall k :: 0 <= k < |kept| ==> !StartsWith(kept[k], Prefix)
    requires forall k :: 0 <= k < |pl| ==> StartsWith(pl[k], Prefix)
    ensures WithoutPresets(kept + Block(pl)) == kept + ["\n", HeaderLine]
  {
    WithoutPresetsAppend(kept, Block(pl));
    WithoutPresetsKeeps(kept);
    WithoutPresetsOfBlock(pl);
  }

  /**
   * A second rewrite with the same presets does not give the same file back:
   * the first rewrite's header is not a preset line, so it is kept, and a new
   * header follows it. Every rewrite lengthens the file by one header.
   */
  lemma RewriteAccumulatesHeaders(text: string, presets: map<int, Json>)
    requires Terminated(text) && PresetLines(presets).Some?
    ensures var once := Rewrite(text, presets).value;
            && Rewrite(once, presets).Some?
            && |Rewrite(once, presets).value| == |once| + |HeaderText|
  {
    var once := Rewrite(text, presets).value;
    var kept := WithoutPresets(ReadLines(text));
    var pl := PresetLines(presets).value;
    RewriteReplacesPresets(text, presets);
    WithoutPresetsShape(ReadLines(text));
    PresetLinesShape(presets);
    KeptAgain(kept, pl);
    HeaderLines();
    ConcatAppend(kept, ["\n", HeaderLine]);
    assert |Concat(WithoutPresets(ReadLines(once)))| == |Concat(kept)| + |HeaderText|;
  }

  /** The empty file with one preset, rewritten twice: the second text differs from the first. */
  lemma RewriteTwiceDiffers()
    ensures var p := map[1 := Str("Warm")];
            && Rewrite("", p).Some?
            && Rewrite(Rewrite("", p).value, p).Some?
            && Rewrite(Rewrite("", p).value, p) != Rewrite("", p)
  {
    var p := map[1 := Str("Warm")];
    assert PresetLines(p).Some?;
    RewriteAccumulatesHeaders("", p);
  }

  // ---------------------------------------------------------------------
  // The rewrite that replaces its own block.
  // ---------------------------------------------------------------------

  /** A line belonging to a block written earlier: a preset line, the comment
      line, or the blank line right before a comment line. */
  predicate OfBlock(l: string, next: seq<string>) {
    StartsWith(l, Prefix) || l == HeaderLine || (l == "\n" && |next| > 0 && next[0] == HeaderLine)
  }

  /** The lines kept from the old file when the old block, header included, is dropped. */
  function WithoutBlock(ls: seq<string>): seq<string> {
    if |ls| == 0 then []
    else (if OfBlock(ls[0], ls[1..]) then [] else [ls[0]]) + WithoutBlock(ls[1..])
  }

  /** No preset line and no comment line is kept; complete lines stay complete. */
  lemma {:induction false} WithoutBlockShape(ls: seq<string>)
    ensures forall k :: 0 <= k < |WithoutBlock(ls)| ==>
              !StartsWith(WithoutBlock(ls)[k], Prefix) && WithoutBlock(ls)[k] != HeaderLine
    ensures AllLines(ls) ==> AllLines(WithoutBlock(ls))
  {
    if |ls| > 0 {
      WithoutBlockShape(ls[1..]);
    }
  }

  lemma OfBlockAppend(l: string, t: seq<string>, b: seq<string>)
    requires |b| == 0 || b[0] != HeaderLine
    ensures OfBlock(l, t + b) == OfBlock(l, t)
  {
    if |t| > 0 {
      assert (t + b)[0] == t[0];
    } else {
      assert t + b == b;
    }
  }

  /** The look-ahead of `WithoutBlock` does not reach into a part that starts
      with anything but the comment line. */
  lemma {:induction false} WithoutBlockAppend(a: seq<string>, b: seq<string>)
    requires |b| == 0 || b[0] != HeaderLine
    ensures WithoutBlock(a + b) == WithoutBlock(a) + WithoutBlock(b)
  {
    if |a| > 0 {
      var t := a[1..];
      assert (a + b)[0] == a[0] && (a + b)[1..] == t + b;
      WithoutBlockAppend(t, b);
      OfBlockAppend(a[0], t, b);
    } else {
      assert a + b == b;
    }
  }

  /** Lines without preset or comment lines pass unchanged. */
  lemma {:induction false} WithoutBlockClean(ls: seq<string>)
    requires forall k :: 0 <= k < |ls| ==> !StartsWith(ls[k], Prefix) && ls[k] != HeaderLine
    ensures WithoutBlock(ls) == ls
  {
    if |ls| > 0 {
      WithoutBlockClean(ls[1..]);
    }
  }

  lemma {:induction false} WithoutBlockDrops(pl: seq<string>)
    requires forall k :: 0 <= k < |pl| ==> StartsWith(pl[k], Prefix)
    ensures WithoutBlock(pl) == []
  {
    if |pl| > 0 {
      WithoutBlockDrops(pl[1..]);
    }
  }

  /** A whole block is dropped. */
  lemma WithoutBlockOfBlock(pl: seq<string>)
    requires forall k :: 0 <= k < |pl| ==> StartsWith(pl[k], Prefix)
    ensures WithoutBlock(Block(pl)) == []
  {
    HeaderLines();
    var b := Block(pl);
    assert b[1..] == [HeaderLine] + pl;
    assert b[1..][1..] == pl;
    WithoutBlockDrops(pl);
  }

  /** The corrected rewrite: as `Rewrite`, but the old header goes with the old presets. */
  function RewriteBlock(text: string, presets: map<int, Json>): (r: Option<string>)
    ensures r.Some? <==> PresetLines(presets).Some?
  {
    match PresetLines(presets)
    case None => None
    case Some(pl) => Some(Concat(WithoutBlock(ReadLines(text))) + Concat([HeaderText] + pl))
  }

  /** Read back after the corrected rewrite, the file holds the lines outside
      the old block, in order, and then the new block. */
  lemma RewriteBlockReplaces(text: string, presets: map<int, Json>)
    requires Terminated(text) && PresetLines(presets).Some?
    ensures ReadLines(RewriteBlock(text, presets).value)
            == WithoutBlock(ReadLines(text)) + Block(PresetLines(presets).value)
  {
    ReadTerminated(text);
    WithoutBlockShape(ReadLines(text));
    PresetLinesShape(presets);
    ReadBack(WithoutBlock(ReadLines(text)), PresetLines(presets).value);
  }

  /**
   * Rewriting a terminated file twice with the same presets gives the text
   * of the first rewrite: the block replaces itself.
   */
  lemma RewriteBlockIdempotent(text: string, presets: map<int, Json>)
    requires Terminated(text) && PresetLines(presets).Some?
    ensures RewriteBlock(RewriteBlock(text, presets).value, presets) == RewriteBlock(text, presets)
  {
    var once := RewriteBlock(text, presets).value;
    var kept := WithoutBlock(ReadLines(text));
    var pl := PresetLines(presets).value;
    ReadTerminated(text);
    WithoutBlockShape(ReadLines(text));
    PresetLinesShape(presets);
    ReadBack(kept, pl);
    HeaderLines();
    WithoutBlockAppend(kept, Block(pl));
    WithoutBlockClean(kept);
    WithoutBlockOfBlock(pl);
    assert kept + [] == kept;
    assert WithoutBlock(ReadLines(once)) == kept;
  }
}
