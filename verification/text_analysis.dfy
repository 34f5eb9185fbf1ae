/** The counting helpers of the example text-analysis tool
    (examples/text-analysis-tool.ts:70-108): words, sentences, paragraphs and
    the syllables of one word. */
module TextAnalysis {
  import opened Strings
  import opened TextSplit
  import opened Sequences

  // ---------------------------------------------------------------------
  // Words, sentences, paragraphs

  /** `text.trim().split(/\s+/).filter(word => word.length > 0).length`. */
  function CountWords(text: string): nat {
    NonEmptyCount(Split(Trim(text), Run(IsSpace)))
  }

  /** The word count is the number of maximal runs of non-whitespace
      characters. */
  lemma CountWordsIsRuns(text: string)
    ensures CountWords(text) == Runs(text, IsSpace)
  {
    var t := TrimStart(text);
    var r := TrimEnd(t);
    SplitRunCount(r, IsSpace, "");
    TrailingSpaceRuns(t, r);
    LeadingSpaceRuns(text, t);
  }

  /** There are no words exactly in blank text. */
  lemma CountWordsZero(text: string)
    ensures CountWords(text) == 0 <==> AllSpace(text)
  {
    CountWordsIsRuns(text);
    RunsZero(text, IsSpace);
  }

  /** Trailing whitespace starts no run. */
  lemma TrailingSpaceRuns(t: string, r: string)
    requires r == TrimEnd(t)
    ensures Runs(t, IsSpace) == Runs(r, IsSpace)
  {
    assert t == r + t[|r|..];
    StartsClassSuffix(r, t[|r|..], IsSpace, false);
  }

  /** Leading whitespace starts no run. */
  lemma LeadingSpaceRuns(text: string, t: string)
    requires t == TrimStart(text)
    ensures Runs(text, IsSpace) == Runs(t, IsSpace)
  {
    var k := |text| - |t|;
    if k > 0 {
      StartsSkipClass(text, IsSpace, k, false);
    }
  }

  predicate IsTerminator(c: char) {
    c == '.' || c == '!' || c == '?'
  }

  /** `text.split(/[.!?]+/).filter(sentence => sentence.trim().length > 0).length`. */
  function CountSentences(text: string): nat {
    ContentCount(Split(text, Run(IsTerminator)))
  }

  /** There are never more sentences than runs of text between
      terminators, and there are none exactly when the text holds nothing
      but terminators and whitespace. */
  lemma CountSentencesBounds(text: string)
    ensures CountSentences(text) <= Runs(text, IsTerminator)
    ensures CountSentences(text) == 0 <==> forall i :: 0 <= i < |text| ==> IsTerminator(text[i]) || IsSpace(text[i])
  {
    var pieces := Split(text, Run(IsTerminator));
    ContentAtMostNonEmpty(pieces);
    SplitRunCount(text, IsTerminator, "");
    ContentCountZero(pieces);
    SplitRunConcat(text, IsTerminator, "");
    assert "" + Without(text, IsTerminator) == Without(text, IsTerminator);
    WithoutAllSpace(text, IsTerminator);
  }

  /** Text with no terminator is one sentence, or none when it is blank. */
  lemma CountSentencesUnterminated(text: string)
    requires forall i :: 0 <= i < |text| ==> !IsTerminator(text[i])
    ensures CountSentences(text) == if AllSpace(text) then 0 else 1
  {
    NoTerminatorNoMatch(text);
    SplitNoMatch(text, Run(IsTerminator));
    ContentCountSingle(text);
  }

  lemma NoTerminatorNoMatch(text: string)
    requires forall i :: 0 <= i < |text| ==> !IsTerminator(text[i])
    ensures forall i :: 0 <= i < |text| ==> MatchLen(Run(IsTerminator), text[i..]) == 0
  {
    forall i | 0 <= i < |text| ensures MatchLen(Run(IsTerminator), text[i..]) == 0 {
      assert text[i..][0] == text[i];
    }
  }

  /** One piece counts exactly when it is not blank. */
  lemma ContentCountSingle(s: string)
    ensures ContentCount([s]) == if AllSpace(s) then 0 else 1
  {
    assert [s][1..] == [];
    HasContentIffNotBlank(s);
  }

  /** `text.split(/\n\s*\n/).filter(p => p.trim().length > 0).length || 1`. */
  function CountParagraphs(text: string): (n: nat)
    ensures n >= 1
  {
    var count := ContentCount(Split(text, ParagraphBreak));
    if count == 0 then 1 else count
  }

  /** Text without a line feed is one paragraph. */
  lemma CountParagraphsSingle(text: string)
    requires forall i :: 0 <= i < |text| ==> text[i] != '\n'
    ensures CountParagraphs(text) == 1
  {
    NoNewlineNoBreak(text);
    SplitNoMatch(text, ParagraphBreak);
    ContentCountSingle(text);
  }

  /** Two single-line paragraphs separated by a blank line are counted as
      two: the break runs from the first line feed to the second. */
  lemma CountParagraphsTwo(a: string, b: string)
    requires HasContent(a) && HasContent(b)
    requires forall i :: 0 <= i < |a| ==> a[i] != '\n'
    requires forall i :: 0 <= i < |b| ==> b[i] != '\n'
    ensures CountParagraphs(a + "\n\n" + b) == 2
  {
    var u := "\n\n" + b;
    var s := a + u;
    assert a + "\n\n" + b == s;
    LeadingLineSkipped(a, u);
    BlankLineBreak(b);
    assert u[2..] == b;
    NoNewlineNoBreak(b);
    SplitNoMatch(b, ParagraphBreak);
    assert Split(s, ParagraphBreak) == [a, b];
    assert [a, b][1..] == [b];
    ContentCountSingle(b);
  }

  /** A line without a line feed becomes the current piece. */
  lemma LeadingLineSkipped(a: string, u: string)
    requires forall i :: 0 <= i < |a| ==> a[i] != '\n'
    ensures Split(a + u, ParagraphBreak) == SplitFrom(u, ParagraphBreak, a)
  {
    forall i | 0 <= i < |a| ensures MatchLen(ParagraphBreak, (a + u)[i..]) == 0 {
      assert (a + u)[i..][0] == a[i];
    }
    SplitSkip(a, u, ParagraphBreak, "");
    assert "" + a == a;
  }

  /** Two line feeds followed by a line without one: the break is exactly
      the two line feeds. */
  lemma BlankLineBreak(b: string)
    requires forall i :: 0 <= i < |b| ==> b[i] != '\n'
    ensures MatchLen(ParagraphBreak, "\n\n" + b) == 2
  {
    var u := "\n\n" + b;
    var run := RunLength(u, IsSpace);
    assert run >= 2 by {
      assert IsSpace(u[0]) && IsSpace(u[1]);
    }
    assert u[1] == '\n';
    forall i | 1 < i < run ensures u[i] != '\n' {
      assert u[i] == b[i - 2];
    }
    assert LastNewline(u, run) == 1;
  }

  /** Pieces with content are non-empty. */
  lemma {:induction false} ContentAtMostNonEmpty(pieces: seq<string>)
    ensures ContentCount(pieces) <= NonEmptyCount(pieces)
  {
    if pieces != [] {
      ContentAtMostNonEmpty(pieces[1..]);
    }
  }

  /** No piece has content exactly when their concatenation is blank. */
  lemma {:induction false} ContentCountZero(pieces: seq<string>)
    ensures ContentCount(pieces) == 0 <==> AllSpace(Concat(pieces))
  {
    if pieces != [] {
      ContentCountZero(pieces[1..]);
      HasContentIffNotBlank(pieces[0]);
      AllSpaceConcat(pieces[0], Concat(pieces[1..]));
    }
  }

  lemma AllSpaceConcat(a: string, b: string)
    ensures AllSpace(a + b) <==> AllSpace(a) && AllSpace(b)
  {
    if AllSpace(a + b) {
      forall i | 0 <= i < |a| ensures IsSpace(a[i]) {
        assert (a + b)[i] == a[i];
      }
      forall i | 0 <= i < |b| ensures IsSpace(b[i]) {
        assert (a + b)[|a| + i] == b[i];
      }
    }
    if AllSpace(a) && AllSpace(b) {
      forall i | 0 <= i < |a + b| ensures IsSpace((a + b)[i]) {
        if i < |a| {
          assert (a + b)[i] == a[i];
        } else {
          assert (a + b)[i] == b[i - |a|];
        }
      }
    }
  }

  /** Removing a class leaves only whitespace exactly when every character
      is in the class or whitespace. */
  lemma {:induction false} WithoutAllSpace(s: string, inClass: char -> bool)
    ensures AllSpace(Without(s, inClass)) <==> forall i :: 0 <= i < |s| ==> inClass(s[i]) || IsSpace(s[i])
    decreases |s|
  {
    if s != [] {
      WithoutAllSpace(s[1..], inClass);
      AllSpaceConcat(if inClass(s[0]) then "" else [s[0]], Without(s[1..], inClass));
      assert (forall i :: 0 <= i < |s| ==> inClass(s[i]) || IsSpace(s[i]))
         <==> (inClass(s[0]) || IsSpace(s[0])) && (forall i :: 0 <= i < |s| - 1 ==> inClass(s[1..][i]) || IsSpace(s[1..][i]));
    }
  }

  // ---------------------------------------------------------------------
  // Syllables

  predicate IsVowel(c: char) {
    c == 'a' || c == 'e' || c == 'i' || c == 'o' || c == 'u' || c == 'y'
  }

  predicate NotVowel(c: char) {
    !IsVowel(c)
  }

  /** What one character contributes to `toLowerCase().replace(/[^a-z]/g, '')`:
      ASCII letters in lower case; the two non-ASCII characters whose lower
      case is an ASCII letter (U+0130 lowers to "i" plus a combining dot,
      which is removed; U+212A, the Kelvin sign, lowers to "k"); nothing for
      any other character. */
  function LowerLetter(c: char): (r: string)
    ensures |r| <= 1
    ensures forall i :: 0 <= i < |r| ==> 'a' <= r[i] <= 'z'
    ensures 'a' <= c <= 'z' ==> r == [c]
  {
    if 'a' <= c <= 'z' then [c]
    else if 'A' <= c <= 'Z' then [(c as int + 32) as char]
    else if c as int == 0x130 then "i"
    else if c as int == 0x212A then "k"
    else ""
  }

  /** Each case of `LowerLetter`: an upper-case ASCII letter gives the same
      letter in lower case, the two non-ASCII characters give their ASCII
      letter, and every other character outside a-z gives nothing. */
  lemma LowerLetterCases(c: char)
    ensures 'A' <= c <= 'Z' ==> |LowerLetter(c)| == 1 && LowerLetter(c)[0] as int - 'a' as int == c as int - 'A' as int
    ensures c as int == 0x130 ==> LowerLetter(c) == "i"
    ensures c as int == 0x212A ==> LowerLetter(c) == "k"
    ensures LowerLetter(c) == [] <==> !('a' <= c <= 'z' || 'A' <= c <= 'Z' || c as int == 0x130 || c as int == 0x212A)
  {
  }

  /** The word lower-cased and reduced to the letters a-z. */
  function Letters(word: string): (w: string)
    ensures |w| <= |word|
    ensures forall i :: 0 <= i < |w| ==> 'a' <= w[i] <= 'z'
  {
    if word == [] then "" else LowerLetter(word[0]) + Letters(word[1..])
  }

  /** Lower-casing and filtering work character by character: the letters
      of a concatenation are the letters of its parts, in order. */
  lemma {:induction false} LettersConcat(a: string, b: string)
    ensures Letters(a + b) == Letters(a) + Letters(b)
    decreases |a|
  {
    if a == [] {
      assert a + b == b;
    } else {
      ConsAppend(a, b);
      LettersConcat(a[1..], b);
      AppendAssoc(LowerLetter(a[0]), Letters(a[1..]), Letters(b));
    }
  }

  /** The letters of one character are its lower-cased letter, if any. */
  lemma LettersOne(c: char)
    ensures Letters([c]) == LowerLetter(c)
  {
    assert [c][1..] == [];
    assert LowerLetter(c) + "" == LowerLetter(c);
  }

  /** A word already made of the letters a-z is kept whole. */
  lemma {:induction false} LettersKeepLower(word: string)
    requires forall i :: 0 <= i < |word| ==> 'a' <= word[i] <= 'z'
    ensures Letters(word) == word
    decreases |word|
  {
    if word != [] {
      LettersKeepLower(word[1..]);
      assert [word[0]] + word[1..] == word;
    }
  }

  /** The number of maximal runs of vowels (`aeiouy`). */
  function VowelGroups(w: string): nat {
    Runs(w, NotVowel)
  }

  /** A final `e` after a consonant, in a word longer than two letters. */
  predicate SilentE(w: string) {
    |w| > 2 && w[|w| - 1] == 'e' && !IsVowel(w[|w| - 2])
  }

  /** `countSyllables(word)`: one syllable for a word of at most three
      letters; otherwise one per group of vowels, less a silent final `e`,
      and never fewer than one. */
  method CountSyllables(word: string) returns (count: nat)
    ensures count >= 1
    ensures |Letters(word)| <= 3 ==> count == 1
    ensures |Letters(word)| > 3 ==>
              var w := Letters(word);
              var adjusted := VowelGroups(w) - (if SilentE(w) then 1 else 0);
              count == if adjusted < 1 then 1 else adjusted
  {
    var w := Letters(word);
    if |w| <= 3 {
      return 1;
    }
    var groups := 0;
    var prevIsVowel := false;
    var i := 0;
    while i < |w|
      invariant 0 <= i <= |w|
      invariant groups == Starts(w[..i], NotVowel, false)
      invariant prevIsVowel == (i > 0 && IsVowel(w[i - 1]))
    {
      var isVowel := IsVowel(w[i]);
      GroupsStep(w, i);
      if isVowel && !prevIsVowel {
        groups := groups + 1;
      }
      prevIsVowel := isVowel;
      i := i + 1;
    }
    assert w[..|w|] == w;
    var adjusted: int := groups;
    if |w| > 2 && w[|w| - 1] == 'e' && !IsVowel(w[|w| - 2]) {
      adjusted := adjusted - 1;
    }
    count := if adjusted < 1 then 1 else adjusted;
  }

  /** Reading the letter at `i` adds a vowel group exactly when it is a
      vowel after a non-vowel. */
  lemma GroupsStep(w: string, i: nat)
    requires i < |w|
    ensures Starts(w[..i + 1], NotVowel, false)
         == Starts(w[..i], NotVowel, false) + (if IsVowel(w[i]) && !(i > 0 && IsVowel(w[i - 1])) then 1 else 0)
  {
    StartsSnoc(w[..i], w[i], NotVowel, false);
    assert w[..i + 1] == w[..i] + [w[i]];
  }

  /** Appending one character starts a new run exactly when it is outside
      the class and the character before it was not. */
  lemma {:induction false} StartsSnoc(s: string, c: char, inClass: char -> bool, inRun: bool)
    ensures Starts(s + [c], inClass, inRun)
         == Starts(s, inClass, inRun)
            + (if !inClass(c) && !(if s == [] then inRun else !inClass(s[|s| - 1])) then 1 else 0)
    decreases |s|
  {
    if s != [] {
      assert (s + [c])[1..] == s[1..] + [c];
      StartsSnoc(s[1..], c, inClass, !inClass(s[0]));
    }
  }

  /** The silent-e adjustment never takes the count below zero: a word
      ending in `e` has at least one vowel group. */
  lemma SilentEHasGroup(w: string)
    requires SilentE(w)
    ensures VowelGroups(w) >= 1
  {
    RunsZero(w, NotVowel);
    assert !NotVowel(w[|w| - 1]);
  }

  /** A word has at most as many vowel groups as letters. */
  lemma {:induction false} VowelGroupsAtMostLength(w: string, inRun: bool)
    ensures Starts(w, NotVowel, inRun) <= |w|
    decreases |w|
  {
    if w != [] {
      VowelGroupsAtMostLength(w[1..], !NotVowel(w[0]));
    }
  }
}
