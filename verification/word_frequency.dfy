/** Word frequencies of the example text-analysis tool
    (examples/text-analysis-tool.ts:152-178): the tally of the words of a
    text, leaving out stop words and one-letter words, and the most frequent
    of them. */
module WordFrequency {

  /** The stop-word set of `calculateWordFrequency`. */
  const StopWords: set<string> := {
    "the", "and", "a", "an", "in", "on", "at", "to", "for", "of", "with",
    "by", "as", "is", "are", "was", "were", "be", "been", "being", "have",
    "has", "had", "do", "does", "did", "but", "or", "if", "then", "else",
    "when", "up", "down", "this", "that", "these", "those", "it", "its"
  }

  /** The words the tally keeps. */
  predicate Counted(word: string) {
    word !in StopWords && |word| > 1
  }

  /** A `Map<string, number>`: its keys in insertion order, and the count of
      each key. */
  datatype Frequency = Frequency(order: seq<string>, counts: map<string, nat>)

  /** Keys are distinct and are exactly the keys that hold a count. */
  ghost predicate Valid(f: Frequency) {
    && (forall i, j :: 0 <= i < j < |f.order| ==> f.order[i] != f.order[j])
    && (forall w :: w in f.counts <==> w in f.order)
  }

  /** The position of the first occurrence of `w`, or `|words|`. */
  function FirstIndex(words: seq<string>, w: string): (r: nat)
    ensures r <= |words|
    ensures r < |words| ==> words[r] == w
    ensures forall j :: 0 <= j < r ==> words[j] != w
  {
    if words == [] then 0
    else if words[0] == w then 0
    else 1 + FirstIndex(words[1..], w)
  }

  /** `frequency.set(word, (frequency.get(word) || 0) + 1)`: a new key goes
      to the end of the insertion order, an existing one keeps its place. */
  function Increment(f: Frequency, w: string): (g: Frequency)
    requires Valid(f)
    ensures Valid(g)
    ensures w in f.counts ==> g.order == f.order && g.counts == f.counts[w := f.counts[w] + 1]
    ensures w !in f.counts ==> g.order == f.order + [w] && g.counts == f.counts[w := 1]
  {
    if w in f.counts then Frequency(f.order, f.counts[w := f.counts[w] + 1])
    else Frequency(f.order + [w], f.counts[w := 1])
  }

  /** The tally of the first `i` words: the words among them that `counted`
      keeps, each with its number of occurrences, keyed in order of first
      occurrence. */
  ghost predicate TallyOf(words: seq<string>, i: nat, f: Frequency, counted: string -> bool)
    requires i <= |words|
  {
    && Valid(f)
    && (forall w :: w in f.counts <==> counted(w) && w in words[..i])
    && (forall w :: w in f.counts ==> f.counts[w] == multiset(words[..i])[w])
    && (forall k :: 0 <= k < |f.order| ==> FirstIndex(words, f.order[k]) < i)
    && (forall a, b :: 0 <= a < b < |f.order| ==> FirstIndex(words, f.order[a]) < FirstIndex(words, f.order[b]))
  }

  /** `calculateWordFrequency` after tokenisation: every counted word of
      the list with the number of its occurrences, keyed in the order the
      words first occur. */
  method CalculateWordFrequency(words: seq<string>) returns (f: Frequency)
    ensures Valid(f)
    ensures forall w :: w in f.counts <==> Counted(w) && w in words
    ensures forall w :: w in f.counts ==> f.counts[w] == multiset(words)[w] && f.counts[w] >= 1
    ensures forall i, j :: 0 <= i < j < |f.order| ==> FirstIndex(words, f.order[i]) < FirstIndex(words, f.order[j])
  {
    f := Frequency([], map[]);
    var i := 0;
    while i < |words|
      invariant 0 <= i <= |words|
      invariant TallyOf(words, i, f, Counted)
    {
      var word := words[i];
      ghost var before := f;
      if Counted(word) {
        f := Increment(f, word);
      }
      TallyStep(words, i, before, Counted);
      i := i + 1;
    }
    assert words[..|words|] == words;
  }

  /** One word of the `forEach`: a counted word is added to the tally. */
  lemma TallyStep(words: seq<string>, i: nat, f: Frequency, counted: string -> bool)
    requires i < |words| && TallyOf(words, i, f, counted)
    ensures TallyOf(words, i + 1, if counted(words[i]) then Increment(f, words[i]) else f, counted)
  {
    assert words[..i + 1] == words[..i] + [words[i]];
    if !counted(words[i]) {
      TallySkip(words, i, f, counted);
    } else if words[i] in f.counts {
      TallyRepeat(words, i, f, counted);
    } else {
      TallyNew(words, i, f, counted);
    }
  }

  lemma TallySkip(words: seq<string>, i: nat, f: Frequency, counted: string -> bool)
    requires i < |words| && TallyOf(words, i, f, counted) && !counted(words[i])
    requires words[..i + 1] == words[..i] + [words[i]]
    ensures TallyOf(words, i + 1, f, counted)
  {
    forall w | w in f.counts ensures f.counts[w] == multiset(words[..i + 1])[w] {
      assert w != words[i];
    }
  }

  lemma TallyRepeat(words: seq<string>, i: nat, f: Frequency, counted: string -> bool)
    requires i < |words| && TallyOf(words, i, f, counted) && counted(words[i]) && words[i] in f.counts
    requires words[..i + 1] == words[..i] + [words[i]]
    ensures TallyOf(words, i + 1, Increment(f, words[i]), counted)
  {
  }

  lemma TallyNew(words: seq<string>, i: nat, f: Frequency, counted: string -> bool)
    requires i < |words| && TallyOf(words, i, f, counted) && counted(words[i]) && words[i] !in f.counts
    requires words[..i + 1] == words[..i] + [words[i]]
    ensures TallyOf(words, i + 1, Increment(f, words[i]), counted)
  {
    FirstOccurrence(words, i);
    NewCounts(words, i, f.counts, f.counts[words[i] := 1], counted);
    NewOrder(words, i, f.order);
  }

  /** A first occurrence enters the map with count 1. */
  lemma NewCounts(words: seq<string>, i: nat, counts: map<string, nat>, updated: map<string, nat>, counted: string -> bool)
    requires i < |words| && counted(words[i]) && words[i] !in counts
    requires words[..i + 1] == words[..i] + [words[i]]
    requires forall w :: w in counts <==> counted(w) && w in words[..i]
    requires forall w :: w in counts ==> counts[w] == multiset(words[..i])[w]
    requires updated == counts[words[i] := 1]
    ensures forall w :: w in updated <==> counted(w) && w in words[..i + 1]
    ensures forall w :: w in updated ==> updated[w] == multiset(words[..i + 1])[w]
  {
    assert multiset(words[..i])[words[i]] == 0;
  }

  /** A first occurrence goes to the end of the key order. */
  lemma NewOrder(words: seq<string>, i: nat, order: seq<string>)
    requires i < |words| && FirstIndex(words, words[i]) == i
    requires forall k :: 0 <= k < |order| ==> FirstIndex(words, order[k]) < i
    requires forall a, b :: 0 <= a < b < |order| ==> FirstIndex(words, order[a]) < FirstIndex(words, order[b])
    ensures var o := order + [words[i]];
            && (forall k :: 0 <= k < |o| ==> FirstIndex(words, o[k]) < i + 1)
            && (forall a, b :: 0 <= a < b < |o| ==> FirstIndex(words, o[a]) < FirstIndex(words, o[b]))
  {
  }

  /** A word that does not occur before position `i` first occurs at `i`. */
  lemma FirstOccurrence(words: seq<string>, i: nat)
    requires i < |words| && words[i] !in words[..i]
    ensures FirstIndex(words, words[i]) == i
  {
    forall j | 0 <= j < i ensures words[j] != words[i] {
      assert words[..i][j] == words[j];
    }
  }

  // ---------------------------------------------------------------------
  // Top words

  datatype WordCount = WordCount(word: string, count: nat)

  /** `Array.from(wordFrequency.entries()).map(...)`: the entries in key order. */
  function Entries(f: Frequency): (es: seq<WordCount>)
    requires Valid(f)
    ensures |es| == |f.order|
    ensures forall k :: 0 <= k < |es| ==> es[k] == WordCount(f.order[k], f.counts[f.order[k]])
  {
    seq(|f.order|, k requires 0 <= k < |f.order| => WordCount(f.order[k], f.counts[f.order[k]]))
  }

  predicate NonIncreasing(es: seq<WordCount>) {
    forall i, j :: 0 <= i < j < |es| ==> es[i].count >= es[j].count
  }

  /** The entries of a given count, in order. */
  function WithCount(es: seq<WordCount>, c: nat): seq<WordCount> {
    if es == [] then []
    else (if es[0].count == c then [es[0]] else []) + WithCount(es[1..], c)
  }

  /** Places `e` before the first entry whose count is not larger. */
  function Insert(e: WordCount, sorted: seq<WordCount>): (r: seq<WordCount>)
    ensures |r| == |sorted| + 1
    ensures multiset(r) == multiset(sorted) + multiset{e}
  {
    if sorted == [] || sorted[0].count <= e.count then [e] + sorted
    else
      assert sorted == [sorted[0]] + sorted[1..];
      [sorted[0]] + Insert(e, sorted[1..])
  }

  /** `.sort((a, b) => b.count - a.count)`: a stable sort by decreasing
      count, here by insertion. */
  function SortByCount(es: seq<WordCount>): (r: seq<WordCount>)
    ensures |r| == |es|
    ensures multiset(r) == multiset(es)
  {
    if es == [] then []
    else
      assert es == [es[0]] + es[1..];
      Insert(es[0], SortByCount(es[1..]))
  }

  /** Inserting into a sorted list keeps it sorted. */
  lemma {:induction false} InsertSorted(e: WordCount, sorted: seq<WordCount>)
    requires NonIncreasing(sorted)
    ensures NonIncreasing(Insert(e, sorted))
    decreases |sorted|
  {
    if sorted != [] && sorted[0].count > e.count {
      var rest := Insert(e, sorted[1..]);
      InsertSorted(e, sorted[1..]);
      forall x | x in rest ensures x.count <= sorted[0].count {
        assert x in multiset(rest);
        if x != e {
          assert x in sorted[1..];
        }
      }
    }
  }

  /** The sort orders the entries by non-increasing count. */
  lemma {:induction false} SortSorted(es: seq<WordCount>)
    ensures NonIncreasing(SortByCount(es))
    decreases |es|
  {
    if es != [] {
      SortSorted(es[1..]);
      InsertSorted(es[0], SortByCount(es[1..]));
    }
  }

  /** Inserting an entry adds it at the head of its own count's entries and
      leaves the others' order alone. */
  lemma {:induction false} InsertStable(e: WordCount, sorted: seq<WordCount>, c: nat)
    ensures WithCount(Insert(e, sorted), c) == (if e.count == c then [e] else []) + WithCount(sorted, c)
    decreases |sorted|
  {
    if sorted == [] || sorted[0].count <= e.count {
      assert ([e] + sorted)[1..] == sorted;
    } else {
      var rest := Insert(e, sorted[1..]);
      InsertStable(e, sorted[1..], c);
      assert ([sorted[0]] + rest)[1..] == rest;
    }
  }

  /** The sort is stable: entries of equal count keep their relative order. */
  lemma {:induction false} SortStable(es: seq<WordCount>, c: nat)
    ensures WithCount(SortByCount(es), c) == WithCount(es, c)
    decreases |es|
  {
    if es != [] {
      SortStable(es[1..], c);
      InsertStable(es[0], SortByCount(es[1..]), c);
    }
  }

  /** The end index of `slice(0, end)` on a list of length `len`. */
  function SliceEnd(len: nat, end: int): (n: nat)
    ensures n <= len
    ensures end >= 0 ==> n == if end < len then end else len
    ensures end < 0 ==> n == if len + end > 0 then len + end else 0
  {
    if end < 0 then (if len + end > 0 then len + end else 0)
    else if end < len then end else len
  }

  /** `getTopWords(wordFrequency, count)`: the entries sorted by decreasing
      count, cut to `count` with `slice(0, count)`. */
  function GetTopWords(f: Frequency, count: int): (top: seq<WordCount>)
    requires Valid(f)
    ensures |top| == SliceEnd(|f.order|, count)
    ensures count >= 0 ==> |top| <= count
    ensures top == SortByCount(Entries(f))[..|top|]
  {
    var sorted := SortByCount(Entries(f));
    sorted[..SliceEnd(|sorted|, count)]
  }

  /** The top words come in non-increasing order of count. */
  lemma TopWordsSorted(f: Frequency, count: int)
    requires Valid(f)
    ensures NonIncreasing(GetTopWords(f, count))
  {
    SortSorted(Entries(f));
  }

  /** Each top word is an entry of the map, with its count. */
  lemma TopWordsFromMap(f: Frequency, count: int)
    requires Valid(f)
    ensures var top := GetTopWords(f, count);
            forall k :: 0 <= k < |top| ==> top[k].word in f.counts && top[k].count == f.counts[top[k].word]
  {
    var es := Entries(f);
    var sorted := SortByCount(es);
    var top := GetTopWords(f, count);
    forall k | 0 <= k < |top| ensures top[k].word in f.counts && top[k].count == f.counts[top[k].word] {
      assert top[k] == sorted[k] && sorted[k] in multiset(es);
    }
  }

  /** No word appears twice among the top words. */
  lemma TopWordsDistinct(f: Frequency, count: int)
    requires Valid(f)
    ensures var top := GetTopWords(f, count);
            forall i, j :: 0 <= i < j < |top| ==> top[i].word != top[j].word
  {
    var es := Entries(f);
    var sorted := SortByCount(es);
    var top := GetTopWords(f, count);
    forall i, j | 0 <= i < j < |top| ensures top[i].word != top[j].word {
      assert top[i] == sorted[i] && top[j] == sorted[j];
      assert sorted[i] in multiset(es) && sorted[j] in multiset(es);
      PairCount(sorted, i, j);
      DistinctOnce(es, sorted[i]);
      DistinctEntries(f, top[i], top[j]);
    }
  }

  /** Nothing left out is more frequent than anything taken. */
  lemma TopWordsMaximal(f: Frequency, count: int)
    requires Valid(f)
    ensures var top := GetTopWords(f, count);
            forall x, i :: x in Entries(f) && x !in top && 0 <= i < |top| ==> x.count <= top[i].count
  {
    var es := Entries(f);
    var sorted := SortByCount(es);
    var top := GetTopWords(f, count);
    SortSorted(es);
    forall x, i | x in es && x !in top && 0 <= i < |top| ensures x.count <= top[i].count {
      assert x in multiset(sorted);
      var m :| 0 <= m < |sorted| && sorted[m] == x;
      assert forall k :: 0 <= k < |top| ==> top[k] == sorted[k];
      assert m >= |top|;
      assert top[i] == sorted[i];
    }
  }

  /** Two entries of a valid map with the same word are the same entry. */
  lemma DistinctEntries(f: Frequency, x: WordCount, y: WordCount)
    requires Valid(f) && x in Entries(f) && y in Entries(f)
    ensures x.word == y.word ==> x == y
  {
    var es := Entries(f);
    var k :| 0 <= k < |es| && es[k] == x;
    var l :| 0 <= l < |es| && es[l] == y;
    assert x.word == f.order[k] && y.word == f.order[l];
  }

  /** A list without repetitions holds each value at most once. */
  lemma {:induction false} DistinctOnce<T>(s: seq<T>, x: T)
    requires forall i, j :: 0 <= i < j < |s| ==> s[i] != s[j]
    ensures multiset(s)[x] <= 1
    decreases |s|
  {
    if s != [] {
      assert s == [s[0]] + s[1..];
      DistinctOnce(s[1..], x);
      forall k | 0 <= k < |s[1..]| ensures s[1..][k] != s[0] {
        assert s[1..][k] == s[k + 1];
      }
    }
  }

  /** A value at two positions occurs at least twice. */
  lemma PairCount<T>(s: seq<T>, i: nat, j: nat)
    requires i < j < |s|
    ensures s[i] == s[j] ==> multiset(s)[s[i]] >= 2
  {
    if s[i] == s[j] {
      var x := s[i];
      assert s == s[..j] + [x] + s[j + 1..];
      assert x in s[..j];
    }
  }
}
