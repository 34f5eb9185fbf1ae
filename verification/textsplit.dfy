/** `String.prototype.split` with the three regular-expression separators the
    text-analysis tool uses (examples/text-analysis-tool.ts:70-80): a run of
    one or more characters of a class (`/\s+/`, `/[.!?]+/`) and a paragraph
    break (`/\n\s*\n/`). The string is scanned from the left; at each
    position the separator either matches (its match is consumed and a piece
    ends) or does not (the character joins the current piece). */
module TextSplit {
  import opened Strings
  import opened Sequences

  datatype Pattern = Run(inClass: char -> bool) | ParagraphBreak

  /** The length of the longest prefix of `s` inside the class. */
  function RunLength(s: string, inClass: char -> bool): (n: nat)
    ensures n <= |s|
    ensures forall i :: 0 <= i < n ==> inClass(s[i])
    ensures n < |s| ==> !inClass(s[n])
    decreases |s|
  {
    if s != [] && inClass(s[0]) then 1 + RunLength(s[1..], inClass) else 0
  }

  /** The last position before `n` that holds a line feed, or -1. */
  function LastNewline(s: string, n: nat): (j: int)
    requires n <= |s|
    ensures -1 <= j < n
    ensures j >= 0 ==> s[j] == '\n'
    ensures forall i :: j < i < n ==> s[i] != '\n'
  {
    if n == 0 then -1 else if s[n - 1] == '\n' then n - 1 else LastNewline(s, n - 1)
  }

  /** The length of the separator match at the start of `s`, 0 when there
      is none. `\n\s*\n` is greedy and backtracks: it runs from a line feed
      to the last line feed of the whitespace that follows it. */
  function MatchLen(p: Pattern, s: string): (n: nat)
    ensures n <= |s|
    ensures p.Run? ==> n == RunLength(s, p.inClass)
    ensures p.ParagraphBreak? && n > 0 ==>
              && n >= 2 && s[0] == '\n' && s[n - 1] == '\n'
              && (forall i :: 0 <= i < n ==> IsSpace(s[i]))
              && (forall i :: n <= i < RunLength(s, IsSpace) ==> s[i] != '\n')
    ensures p.ParagraphBreak? && s != [] && s[0] != '\n' ==> n == 0
    ensures (p.ParagraphBreak? && s != [] && s[0] == '\n'
             && exists i :: 1 <= i < RunLength(s, IsSpace) && s[i] == '\n') ==> n > 0
  {
    match p
    case Run(inClass) => RunLength(s, inClass)
    case ParagraphBreak =>
      if s != [] && s[0] == '\n' then
        var j := LastNewline(s, RunLength(s, IsSpace));
        if j >= 1 then j + 1 else 0
      else 0
  }

  /** The pieces of `s`, the first of them continuing `cur`. */
  function SplitFrom(s: string, p: Pattern, cur: string): (pieces: seq<string>)
    ensures |pieces| >= 1
    decreases |s|
  {
    if s == [] then [cur]
    else
      var n := MatchLen(p, s);
      if n > 0 then [cur] + SplitFrom(s[n..], p, "")
      else SplitFrom(s[1..], p, cur + [s[0]])
  }

  /** `s.split(p)`. */
  function Split(s: string, p: Pattern): seq<string> {
    SplitFrom(s, p, "")
  }

  /** The pieces joined back without separators. */
  function Concat(pieces: seq<string>): string {
    if pieces == [] then "" else pieces[0] + Concat(pieces[1..])
  }

  /** `s` with every character of the class removed. */
  function Without(s: string, inClass: char -> bool): string {
    if s == [] then ""
    else (if inClass(s[0]) then "" else [s[0]]) + Without(s[1..], inClass)
  }

  /** The number of maximal runs of characters outside the class in `s`,
      when the character before `s` was outside the class (`inRun`) or not. */
  function Starts(s: string, inClass: char -> bool, inRun: bool): nat
    decreases |s|
  {
    if s == [] then 0
    else if inClass(s[0]) then Starts(s[1..], inClass, false)
    else (if inRun then 0 else 1) + Starts(s[1..], inClass, true)
  }

  /** The number of maximal runs of characters outside the class. */
  function Runs(s: string, inClass: char -> bool): nat {
    Starts(s, inClass, false)
  }

  /** `pieces.filter(x => x.length > 0).length`. */
  function NonEmptyCount(pieces: seq<string>): nat {
    if pieces == [] then 0 else (if pieces[0] != "" then 1 else 0) + NonEmptyCount(pieces[1..])
  }

  /** `pieces.filter(x => x.trim().length > 0).length`. */
  function ContentCount(pieces: seq<string>): nat {
    if pieces == [] then 0 else (if HasContent(pieces[0]) then 1 else 0) + ContentCount(pieces[1..])
  }

  // ---------------------------------------------------------------------
  // Runs

  /** A run of class characters ends any run before it and adds none. */
  lemma {:induction false} StartsSkipClass(s: string, inClass: char -> bool, n: nat, inRun: bool)
    requires 1 <= n <= |s| && forall i :: 0 <= i < n ==> inClass(s[i])
    ensures Starts(s, inClass, inRun) == Starts(s[n..], inClass, false)
    decreases n
  {
    if n > 1 {
      StartsSkipClass(s[1..], inClass, n - 1, false);
      assert s[1..][n - 1..] == s[n..];
    }
  }

  /** Only a string made entirely of class characters has no run. */
  lemma {:induction false} RunsZero(s: string, inClass: char -> bool)
    ensures Runs(s, inClass) == 0 <==> forall i :: 0 <= i < |s| ==> inClass(s[i])
    decreases |s|
  {
    if s != [] {
      RunsZero(s[1..], inClass);
      if inClass(s[0]) {
        assert (forall i :: 0 <= i < |s| ==> inClass(s[i]))
           <==> (forall i :: 0 <= i < |s| - 1 ==> inClass(s[1..][i]));
      }
    }
  }

  /** Class characters appended at the end start no run. */
  lemma {:induction false} StartsClassSuffix(s: string, t: string, inClass: char -> bool, inRun: bool)
    requires forall i :: 0 <= i < |t| ==> inClass(t[i])
    ensures Starts(s + t, inClass, inRun) == Starts(s, inClass, inRun)
    decreases |s| + |t|
  {
    if s == [] {
      assert s + t == t;
      if t != [] {
        StartsClassSuffix([], t[1..], inClass, false);
        assert [] + t[1..] == t[1..];
      }
    } else {
      assert (s + t)[1..] == s[1..] + t;
      StartsClassSuffix(s[1..], t, inClass, !inClass(s[0]));
    }
  }

  // ---------------------------------------------------------------------
  // Splitting on a run separator

  /** Splitting on runs of a class and dropping the empty pieces leaves one
      piece per maximal run of characters outside the class. */
  lemma {:induction false} SplitRunCount(s: string, inClass: char -> bool, cur: string)
    ensures NonEmptyCount(SplitFrom(s, Run(inClass), cur)) == (if cur != "" then 1 else 0) + Starts(s, inClass, cur != "")
    decreases |s|
  {
    if s != [] {
      var n := MatchLen(Run(inClass), s);
      if n > 0 {
        var rest := SplitFrom(s[n..], Run(inClass), "");
        SplitRunCount(s[n..], inClass, "");
        StartsSkipClass(s, inClass, n, cur != "");
        assert ([cur] + rest)[1..] == rest;
      } else {
        SplitRunCount(s[1..], inClass, cur + [s[0]]);
      }
    }
  }

  /** The pieces hold exactly the characters outside the class, in order:
      joining them gives back `s` without its separators. */
  lemma {:induction false} SplitRunConcat(s: string, inClass: char -> bool, cur: string)
    ensures Concat(SplitFrom(s, Run(inClass), cur)) == cur + Without(s, inClass)
    decreases |s|
  {
    if s != [] {
      var n := MatchLen(Run(inClass), s);
      if n > 0 {
        var rest := SplitFrom(s[n..], Run(inClass), "");
        SplitRunConcat(s[n..], inClass, "");
        WithoutSkipClass(s, inClass, n);
        assert ([cur] + rest)[0] == cur && ([cur] + rest)[1..] == rest;
        assert "" + Without(s[n..], inClass) == Without(s, inClass);
      } else {
        SplitRunConcat(s[1..], inClass, cur + [s[0]]);
        AppendAssoc(cur, [s[0]], Without(s[1..], inClass));
      }
    }
  }

  lemma {:induction false} WithoutSkipClass(s: string, inClass: char -> bool, n: nat)
    requires n <= |s| && forall i :: 0 <= i < n ==> inClass(s[i])
    ensures Without(s, inClass) == Without(s[n..], inClass)
    decreases n
  {
    if n > 0 {
      WithoutSkipClass(s[1..], inClass, n - 1);
      assert s[1..][n - 1..] == s[n..];
    }
  }

  // ---------------------------------------------------------------------
  // Stretches without a separator

  /** Characters at which the separator does not match are carried into
      the current piece. */
  lemma {:induction false} SplitSkip(x: string, rest: string, p: Pattern, cur: string)
    requires forall i :: 0 <= i < |x| ==> MatchLen(p, (x + rest)[i..]) == 0
    ensures SplitFrom(x + rest, p, cur) == SplitFrom(rest, p, cur + x)
    decreases |x|
  {
    if x == [] {
      assert x + rest == rest && cur + x == cur;
    } else {
      ConsAppend(x, rest);
      assert MatchLen(p, (x + rest)[0..]) == 0;
      SplitCarry(x + rest, p, cur);
      forall i | 0 <= i < |x[1..]| ensures MatchLen(p, (x[1..] + rest)[i..]) == 0 {
        assert (x[1..] + rest)[i..] == (x + rest)[i + 1..];
      }
      SplitSkip(x[1..], rest, p, cur + [x[0]]);
      AppendAssoc(cur, [x[0]], x[1..]);
    }
  }

  /** A character at which the separator does not match joins the current
      piece. */
  lemma SplitCarry(s: string, p: Pattern, cur: string)
    requires s != [] && MatchLen(p, s[0..]) == 0
    ensures SplitFrom(s, p, cur) == SplitFrom(s[1..], p, cur + [s[0]])
  {
    assert s[0..] == s;
  }

  /** A string in which the separator never matches is one piece. */
  lemma SplitNoMatch(s: string, p: Pattern)
    requires forall i :: 0 <= i < |s| ==> MatchLen(p, s[i..]) == 0
    ensures Split(s, p) == [s]
  {
    assert s + "" == s;
    SplitSkip(s, "", p, "");
    assert "" + s == s;
  }

  /** No line feed, no paragraph break. */
  lemma NoNewlineNoBreak(s: string)
    requires forall i :: 0 <= i < |s| ==> s[i] != '\n'
    ensures forall i :: 0 <= i < |s| ==> MatchLen(ParagraphBreak, s[i..]) == 0
  {
    forall i | 0 <= i < |s| ensures MatchLen(ParagraphBreak, s[i..]) == 0 {
      assert s[i..][0] == s[i];
    }
  }
}
