/**
 * The text summariser route (src/app/api/text/route.js): cleaning the text, cutting it
 * into sentences, counting words and reading time, the five most frequent words, the
 * extractive summary and the request validation of POST.
 *
 * The word tokenizer and the TF-IDF sentence scores come from the `natural` library and
 * are parameters here; the abstractive summary is produced by a generative model and is
 * an input.
 */
module TextSummary {
  import opened Wrappers
  import opened Strings
  import opened Lists

  // ---------------------------------------------------------------- cleanText

  /** JavaScript's `\w`: an ASCII letter, digit or `_`. */
  predicate IsWordChar(c: char) {
    'a' <= c <= 'z' || 'A' <= c <= 'Z' || '0' <= c <= '9' || c == '_'
  }

  /** What `/[^\w\s.,!?]/g` keeps. */
  predicate IsKept(c: char) {
    IsWordChar(c) || IsSpace(c) || c == '.' || c == ',' || c == '!' || c == '?'
  }

  predicate IsNewline(c: char) {
    c == '\n' || c == '\r'
  }

  /** `s.replace(/[\n\r]+/g, '. ')`. */
  function ReplaceNewlines(s: string): string
    decreases |s|
  {
    if s == [] then []
    else if IsNewline(s[0]) then ". " + ReplaceNewlines(s[FindFrom(s, 0, c => !IsNewline(c))..])
    else [s[0]] + ReplaceNewlines(s[1..])
  }

  /** A string without newlines is left as it is. */
  lemma {:induction false} ReplaceNewlinesNone(s: string)
    requires NoneIn(s, IsNewline)
    ensures ReplaceNewlines(s) == s
    decreases |s|
  {
    if s != [] {
      ReplaceNewlinesNone(s[1..]);
    }
  }

  /** `s.replace(/[^\w\s.,!?]/g, '')`. */
  function StripDisallowed(s: string): (r: string)
    ensures forall k :: 0 <= k < |r| ==> IsKept(r[k])
    ensures forall k :: 0 <= k < |s| && IsKept(s[k]) && !IsSpace(s[k]) ==> s[k] in r
    decreases |s|
  {
    if s == [] then []
    else
      var rest := StripDisallowed(s[1..]);
      assert forall k :: 1 <= k < |s| ==> s[k] == s[1..][k - 1];
      if IsKept(s[0]) then [s[0]] + rest else rest
  }

  /** Characters that survive `StripDisallowed` were already there. */
  lemma {:induction false} StripDisallowedFrom(s: string, k: nat)
    requires k < |StripDisallowed(s)|
    ensures StripDisallowed(s)[k] in s
    decreases |s|
  {
    var rest := StripDisallowed(s[1..]);
    if IsKept(s[0]) {
      if k > 0 {
        StripDisallowedFrom(s[1..], k - 1);
      }
    } else {
      StripDisallowedFrom(s[1..], k);
    }
  }

  /** `cleanText(text)`. */
  function CleanText(text: string): string {
    Trim(StripDisallowed(ReplaceNewlines(CollapseSpaces(text))))
  }

  /**
   * The newline step of `cleanText` never fires: collapsing whitespace has already
   * turned every newline into a space.
   */
  lemma NewlineStepIsIdle(text: string)
    ensures ReplaceNewlines(CollapseSpaces(text)) == CollapseSpaces(text)
  {
    var c := CollapseSpaces(text);
    assert forall k :: 0 <= k < |c| ==> !IsNewline(c[k]) by {
      forall k | 0 <= k < |c| ensures !IsNewline(c[k]) {
        if IsSpace(c[k]) {
          assert c[k] == ' ';
        }
      }
    }
    ReplaceNewlinesNone(c);
  }

  /** An allowed character other than whitespace: what `cleanText` never drops. */
  predicate IsSolid(c: char) {
    IsKept(c) && !IsSpace(c)
  }

  /** A string none of whose characters is solid has no solid characters to keep. */
  lemma {:induction false} NoSolid(s: string)
    requires forall k :: 0 <= k < |s| ==> !IsSolid(s[k])
    ensures Filter(s, IsSolid) == []
    decreases |s|
  {
    if s != [] {
      NoSolid(s[1..]);
      assert s == [s[0]] + s[1..];
      SolidCons(s[0], s[1..]);
    }
  }

  /** Whitespace only: nothing solid. */
  lemma NoSolidInSpaces(s: string)
    requires forall k :: 0 <= k < |s| ==> IsSpace(s[k])
    ensures Filter(s, IsSolid) == []
  {
    NoSolid(s);
  }

  /** The solid characters of `[c] + s`. */
  lemma SolidCons(c: char, s: string)
    ensures Filter([c] + s, IsSolid) == (if IsSolid(c) then [c] else []) + Filter(s, IsSolid)
  {
    FilterConcat([c], s, IsSolid);
    assert [c][1..] == [];
  }

  /** Collapsing whitespace keeps the solid characters, in order. */
  lemma {:induction false} CollapseKeepsSolid(s: string)
    ensures Filter(CollapseSpaces(s), IsSolid) == Filter(s, IsSolid)
    decreases |s|
  {
    if s != [] {
      if IsSpace(s[0]) {
        var j := FindFrom(s, 0, c => !IsSpace(c));
        CollapseKeepsSolid(s[j..]);
        SolidCons(' ', CollapseSpaces(s[j..]));
        SolidDropPrefix(s, j);
      } else {
        CollapseKeepsSolid(s[1..]);
        SolidCons(s[0], CollapseSpaces(s[1..]));
        assert s == [s[0]] + s[1..];
        SolidCons(s[0], s[1..]);
      }
    }
  }

  /** Stripping disallowed characters keeps the solid ones, in order. */
  lemma {:induction false} StripKeepsSolid(s: string)
    ensures Filter(StripDisallowed(s), IsSolid) == Filter(s, IsSolid)
    decreases |s|
  {
    if s != [] {
      StripKeepsSolid(s[1..]);
      assert s == [s[0]] + s[1..];
      SolidCons(s[0], s[1..]);
      if IsKept(s[0]) {
        SolidCons(s[0], StripDisallowed(s[1..]));
      }
    }
  }

  /** Dropping leading whitespace loses no solid character. */
  lemma {:induction false} SolidDropPrefix(s: string, i: nat)
    requires i <= |s|
    requires forall k :: 0 <= k < i ==> IsSpace(s[k])
    ensures Filter(s[i..], IsSolid) == Filter(s, IsSolid)
    decreases i
  {
    if i > 0 {
      SolidDropPrefix(s[1..], i - 1);
      assert s[1..][i - 1..] == s[i..];
      assert s == [s[0]] + s[1..];
      SolidCons(s[0], s[1..]);
    }
  }

  /** Dropping trailing whitespace loses no solid character. */
  lemma {:induction false} SolidDropSuffix(s: string, j: nat)
    requires j <= |s|
    requires forall k :: j <= k < |s| ==> IsSpace(s[k])
    ensures Filter(s[..j], IsSolid) == Filter(s, IsSolid)
    decreases |s|
  {
    if j == 0 {
      NoSolidInSpaces(s);
    } else {
      SolidDropSuffix(s[1..], j - 1);
      assert s[1..][..j - 1] == s[1..j];
      assert s[..j] == [s[0]] + s[1..j];
      SolidCons(s[0], s[1..j]);
      assert s == [s[0]] + s[1..];
      SolidCons(s[0], s[1..]);
    }
  }

  /** An infix with only whitespace around it has all the solid characters of the whole. */
  lemma SolidOfInfix(s: string, i: nat, n: nat)
    requires i + n <= |s|
    requires forall k :: 0 <= k < i ==> IsSpace(s[k])
    requires forall k :: i + n <= k < |s| ==> IsSpace(s[k])
    ensures Filter(s[i..i + n], IsSolid) == Filter(s, IsSolid)
  {
    SolidDropPrefix(s, i);
    SolidDropSuffixAt(s, i, n);
  }

  /** `SolidDropSuffix` on the suffix of `s` from `i`. */
  lemma SolidDropSuffixAt(s: string, i: nat, n: nat)
    requires i + n <= |s|
    requires forall k :: i + n <= k < |s| ==> IsSpace(s[k])
    ensures Filter(s[i..i + n], IsSolid) == Filter(s[i..], IsSolid)
  {
    SolidDropSuffix(s[i..], n);
    assert s[i..][..n] == s[i..i + n];
  }

  /** Trimming keeps the solid characters, in order. */
  lemma TrimKeepsSolid(s: string)
    ensures Filter(Trim(s), IsSolid) == Filter(s, IsSolid)
  {
    var i := TrimInfix(s);
    SolidOfInfix(s, i, |Trim(s)|);
  }

  /** The characters `cleanText` leaves are allowed, spaces are plain, and each other one was in the text. */
  lemma CleanTextKept(text: string)
    ensures forall k :: 0 <= k < |CleanText(text)| ==>
              IsKept(CleanText(text)[k]) && (IsSpace(CleanText(text)[k]) ==> CleanText(text)[k] == ' ')
    ensures forall k :: 0 <= k < |CleanText(text)| && !IsSpace(CleanText(text)[k]) ==> CleanText(text)[k] in text
  {
    NewlineStepIsIdle(text);
    var c := CollapseSpaces(text);
    var d := StripDisallowed(c);
    var r := Trim(d);
    var i := TrimInfix(d);
    forall k | 0 <= k < |r|
      ensures IsKept(r[k]) && (IsSpace(r[k]) ==> r[k] == ' ')
      ensures !IsSpace(r[k]) ==> r[k] in text
    {
      assert r[k] == d[i + k];
      StripDisallowedFrom(c, i + k);
      var m :| 0 <= m < |c| && c[m] == r[k];
    }
  }

  /** `cleanText` keeps every allowed non-space character of the text, in order. */
  lemma CleanTextKeepsSolid(text: string)
    ensures Filter(CleanText(text), IsSolid) == Filter(text, IsSolid)
  {
    NewlineStepIsIdle(text);
    var c := CollapseSpaces(text);
    var d := StripDisallowed(c);
    CollapseKeepsSolid(text);
    StripKeepsSolid(c);
    TrimKeepsSolid(d);
  }

  /**
   * What `cleanText` leaves: word characters, single spaces (the only whitespace left)
   * and `.,!?`, with no space at either end. Its other characters are exactly the
   * allowed non-space characters of the text, in their order.
   */
  lemma CleanTextChars(text: string)
    ensures IsTrimmed(CleanText(text))
    ensures forall k :: 0 <= k < |CleanText(text)| ==>
              IsKept(CleanText(text)[k]) && (IsSpace(CleanText(text)[k]) ==> CleanText(text)[k] == ' ')
    ensures forall k :: 0 <= k < |CleanText(text)| && !IsSpace(CleanText(text)[k]) ==> CleanText(text)[k] in text
    ensures Filter(CleanText(text), IsSolid) == Filter(text, IsSolid)
  {
    CleanTextKept(text);
    CleanTextKeepsSolid(text);
  }

  /** Text whose only whitespace is single spaces, none at the start, is left as it is by collapsing. */
  lemma {:induction false} CollapseSpacesSingle(s: string)
    requires forall k :: 0 <= k < |s| && IsSpace(s[k]) ==> s[k] == ' ' && 0 < k && !IsSpace(s[k - 1])
    ensures CollapseSpaces(s) == s
    decreases |s|
  {
    if s != [] {
      if |s| > 1 && IsSpace(s[1]) {
        var t := s[1..];
        FindFromIs(t, 0, c => !IsSpace(c), 1);
        assert t[1..] == s[2..];
        CollapseSpacesSingle(s[2..]);
        assert CollapseSpaces(t) == [' '] + s[2..];
      } else {
        CollapseSpacesSingle(s[1..]);
      }
    }
  }

  lemma CollapseExample()
    ensures CollapseSpaces("a @ b") == "a @ b"
  {
    var s := "a @ b";
    assert forall k :: 0 <= k < |s| && IsSpace(s[k]) ==> k == 1 || k == 3;
    CollapseSpacesSingle(s);
  }

  lemma ReplaceNewlinesExample()
    ensures ReplaceNewlines("a @ b") == "a @ b"
  {
    ReplaceNewlinesNone("a @ b");
  }

  lemma StripDisallowedExample()
    ensures StripDisallowed("a @ b") == "a  b"
  {
    assert "a @ b"[1..] == " @ b" && " @ b"[1..] == "@ b" && "@ b"[1..] == " b" && " b"[1..] == "b";
    assert StripDisallowed("b") == "b";
    assert StripDisallowed(" b") == " b";
    assert StripDisallowed("@ b") == " b";
    assert StripDisallowed(" @ b") == "  b";
  }

  /**
   * Removing a character between two spaces leaves two spaces: `cleanText("a @ b")` is
   * `"a  b"`, so runs of whitespace are not always collapsed in the result.
   */
  lemma CleanTextKeepsDoubleSpace()
    ensures CleanText("a @ b") == "a  b"
  {
    CollapseExample();
    ReplaceNewlinesExample();
    StripDisallowedExample();
    TrimTrimmed("a  b");
  }

  // ---------------------------------------------------------------- splitIntoSentences

  /** `[^.!?]`. */
  predicate IsNonTerminator(c: char) {
    !IsTerminator(c)
  }

  /**
   * One match of `/[^.!?]+[.!?]+/`: one or more non-terminators, then one or more
   * terminators and nothing else.
   */
  predicate IsSentenceMatch(f: string) {
    && |f| >= 2 && !IsTerminator(f[0]) && IsTerminator(f[|f| - 1])
    && forall k :: 0 < k < |f| && !IsTerminator(f[k]) ==> !IsTerminator(f[k - 1])
  }

  /** Some non-terminator is followed, later on, by a terminator. */
  predicate HasCompleteSentence(s: string) {
    exists i, j :: 0 <= i < j < |s| && !IsTerminator(s[i]) && IsTerminator(s[j])
  }

  /**
   * `text.match(/[^.!?]+[.!?]+/g) || []`: leading terminators are skipped, each run of
   * non-terminators is matched with the terminators after it, and text after the last
   * terminator is dropped.
   */
  function SplitIntoSentences(s: string): (r: seq<string>)
    ensures forall k :: 0 <= k < |r| ==> IsSentenceMatch(r[k])
    decreases |s|
  {
    var i := FindFrom(s, 0, IsNonTerminator);
    if i == |s| then []
    else
      var j := FindFrom(s, i, IsTerminator);
      if j == |s| then []
      else
        var k := FindFrom(s, j, IsNonTerminator);
        var f := s[i..k];
        assert forall m :: 0 <= m < |f| ==> f[m] == s[i + m];
        [f] + SplitIntoSentences(s[k..])
  }

  /** The matches concatenated. */
  function Concat(parts: seq<string>): string
    decreases |parts|
  {
    if parts == [] then "" else parts[0] + Concat(parts[1..])
  }

  /**
   * The matches are the text without its leading terminators and without what follows
   * its last terminator: nothing in between is lost.
   */
  lemma {:induction false} SentencesCoverText(s: string) returns (pre: string, post: string)
    ensures s == pre + Concat(SplitIntoSentences(s)) + post
    ensures pre == s[..FindFrom(s, 0, IsNonTerminator)]
    ensures forall k :: 0 <= k < |pre| ==> IsTerminator(pre[k])
    ensures NoneIn(post, IsTerminator)
    decreases |s|
  {
    var i := FindFrom(s, 0, IsNonTerminator);
    pre := s[..i];
    if i == |s| {
      post := "";
      assert s == pre + Concat([]) + post;
    } else {
      var j := FindFrom(s, i, IsTerminator);
      if j == |s| {
        post := s[i..];
        assert s == pre + Concat([]) + post;
      } else {
        var k := FindFrom(s, j, IsNonTerminator);
        var p2, q2 := SentencesCoverText(s[k..]);
        post := q2;
        SplitStep(s, i, j, k);
        assert s[k..][..0] + Concat(SplitIntoSentences(s[k..])) == Concat(SplitIntoSentences(s[k..]));
        Glue(s, i, k, SplitIntoSentences(s), SplitIntoSentences(s[k..]), q2);
      }
    }
  }

  /** Unfolding `SplitIntoSentences` once when the text holds a complete sentence. */
  lemma SplitStep(s: string, i: nat, j: nat, k: nat)
    requires i == FindFrom(s, 0, IsNonTerminator) && i < |s|
    requires j == FindFrom(s, i, IsTerminator) && j < |s|
    requires k == FindFrom(s, j, IsNonTerminator)
    ensures i < k && SplitIntoSentences(s) == [s[i..k]] + SplitIntoSentences(s[k..])
    ensures FindFrom(s[k..], 0, IsNonTerminator) == 0
  {
  }

  /** A match glued in front of matches that cover the rest of the text. */
  lemma Glue(s: string, i: nat, k: nat, sentences: seq<string>, rest: seq<string>, q: string)
    requires i <= k <= |s| && sentences == [s[i..k]] + rest
    requires s[k..] == Concat(rest) + q
    ensures s == s[..i] + Concat(sentences) + q
  {
    assert sentences[1..] == rest;
    assert Concat(sentences) == s[i..k] + Concat(rest);
    assert s == s[..i] + s[i..k] + s[k..];
  }

  /** No match at all exactly when no non-terminator is followed by a terminator. */
  lemma NoSentences(s: string)
    ensures SplitIntoSentences(s) == [] <==> !HasCompleteSentence(s)
  {
    var i := FindFrom(s, 0, IsNonTerminator);
    if i < |s| {
      var j := FindFrom(s, i, IsTerminator);
      if j < |s| {
        assert !IsTerminator(s[i]) && IsTerminator(s[j]);
      }
    }
  }

  // ---------------------------------------------------------------- word count and reading time

  /** `getWordCount(text)`: the pieces of the trimmed text split on runs of whitespace. */
  function WordCount(text: string): (r: nat)
    ensures r >= 1
  {
    |Split(Trim(text), IsSpace)|
  }

  /** Blank text still counts one word: it trims to `""`, which splits to `[""]`. */
  lemma BlankCountsOne(text: string)
    requires forall k :: 0 <= k < |text| ==> IsSpace(text[k])
    ensures WordCount(text) == 1
  {
    var i := TrimInfix(text);
    assert Split("", IsSpace) == [""];
  }

  /** `getReadingTime(wordCount)`: `⌈wordCount / 200⌉` minutes. */
  function ReadingTime(wordCount: nat): (r: nat)
    ensures 200 * r >= wordCount
    ensures r > 0 ==> 200 * (r - 1) < wordCount
  {
    (wordCount + 199) / 200
  }

  // ---------------------------------------------------------------- getMainTopics

  /** Words longer than three characters are counted. */
  predicate IsTopicWord(w: string) {
    |w| > 3
  }

  /** How often `w` occurs in `words`. */
  function Occurrences(words: seq<string>, w: string): (r: nat)
    ensures r <= |words|
    ensures r > 0 <==> w in words
    decreases |words|
  {
    if words == [] then 0
    else Occurrences(words[..|words| - 1], w) + (if words[|words| - 1] == w then 1 else 0)
  }

  /** The counted words, each once, in the order they first occur. */
  function FirstSeen(words: seq<string>): (r: seq<string>)
    ensures forall k :: 0 <= k < |r| ==> IsTopicWord(r[k]) && r[k] in words
    ensures forall w :: w in words && IsTopicWord(w) ==> w in r
    ensures forall i, j :: 0 <= i < j < |r| ==> r[i] != r[j]
    decreases |words|
  {
    if words == [] then []
    else
      var prefix := words[..|words| - 1];
      var last := words[|words| - 1];
      var r := FirstSeen(prefix);
      assert forall w :: w in words ==> w in prefix || w == last;
      if IsTopicWord(last) && last !in r then r + [last] else r
  }

  /** A word with its count, as `Object.entries(wordFreq)` lists it. */
  datatype Entry = Entry(word: string, count: nat)

  /** The sort key of an entry: its count, highest first. */
  function EntryRank(e: Entry): Rank {
    Rank(e.count, 0.0)
  }

  /** The frequency table's entries, in insertion order. */
  function Entries(words: seq<string>): (r: seq<Entry>)
    ensures |r| == |FirstSeen(words)|
  {
    var seen := FirstSeen(words);
    seq(|seen|, k requires 0 <= k < |seen| => Entry(seen[k], Occurrences(words, seen[k])))
  }

  /** The words of the five best-ranked entries. */
  function Topics(words: seq<string>): (r: seq<string>) {
    var top := Take(SortByRank(Entries(words), EntryRank), 5);
    seq(|top|, k requires 0 <= k < |top| => top[k].word)
  }

  /** The frequency table and its insertion order after the first `i` words. */
  ghost predicate Counted(words: seq<string>, i: nat, wordFreq: map<string, nat>, order: seq<string>)
    requires i <= |words|
  {
    Tallied(words[..i], wordFreq, order)
  }

  /** The frequency table and its insertion order for the words `seen`. */
  ghost predicate Tallied(seen: seq<string>, wordFreq: map<string, nat>, order: seq<string>) {
    && order == FirstSeen(seen)
    && (forall w :: w in wordFreq <==> w in order)
    && (forall w :: w in wordFreq ==> wordFreq[w] == Occurrences(seen, w))
  }

  /** Counting word `i` keeps the table in step with the words seen so far. */
  lemma CountStep(words: seq<string>, i: nat, wordFreq: map<string, nat>, order: seq<string>,
                  wordFreq': map<string, nat>, order': seq<string>)
    requires i < |words| && Counted(words, i, wordFreq, order)
    requires !IsTopicWord(words[i]) ==> wordFreq' == wordFreq && order' == order
    requires IsTopicWord(words[i]) && words[i] in wordFreq ==>
      wordFreq' == wordFreq[words[i] := wordFreq[words[i]] + 1] && order' == order
    requires IsTopicWord(words[i]) && words[i] !in wordFreq ==>
      wordFreq' == wordFreq[words[i] := 1] && order' == order + [words[i]]
    ensures Counted(words, i + 1, wordFreq', order')
  {
    assert words[..i + 1] == words[..i] + [words[i]];
    TallyStep(words[..i], words[i], wordFreq, order, wordFreq', order');
  }

  lemma TallyStep(seen: seq<string>, word: string, wordFreq: map<string, nat>, order: seq<string>,
                  wordFreq': map<string, nat>, order': seq<string>)
    requires Tallied(seen, wordFreq, order)
    requires !IsTopicWord(word) ==> wordFreq' == wordFreq && order' == order
    requires IsTopicWord(word) && word in wordFreq ==>
      wordFreq' == wordFreq[word := wordFreq[word] + 1] && order' == order
    requires IsTopicWord(word) && word !in wordFreq ==>
      wordFreq' == wordFreq[word := 1] && order' == order + [word]
    ensures Tallied(seen + [word], wordFreq', order')
  {
    FirstSeenSnoc(seen, word);
    assert order' == FirstSeen(seen + [word]);
    forall w | w in wordFreq' ensures wordFreq'[w] == Occurrences(seen + [word], w) {
      OccurrencesSnoc(seen, word, w);
    }
  }

  lemma OccurrencesSnoc(prefix: seq<string>, word: string, w: string)
    ensures Occurrences(prefix + [word], w) == Occurrences(prefix, w) + (if word == w then 1 else 0)
  {
    assert (prefix + [word])[..|prefix|] == prefix;
  }

  lemma FirstSeenSnoc(prefix: seq<string>, word: string)
    ensures FirstSeen(prefix + [word]) ==
      if IsTopicWord(word) && word !in FirstSeen(prefix) then FirstSeen(prefix) + [word] else FirstSeen(prefix)
  {
    assert (prefix + [word])[..|prefix|] == prefix;
  }

  /** The `forEach` callback of `getMainTopics`: counts one word. */
  method CountWord(wordFreq: map<string, nat>, order: seq<string>, word: string)
    returns (wordFreq': map<string, nat>, order': seq<string>)
    ensures !IsTopicWord(word) ==> wordFreq' == wordFreq && order' == order
    ensures IsTopicWord(word) && word in wordFreq ==>
      wordFreq' == wordFreq[word := wordFreq[word] + 1] && order' == order
    ensures IsTopicWord(word) && word !in wordFreq ==>
      wordFreq' == wordFreq[word := 1] && order' == order + [word]
  {
    wordFreq', order' := wordFreq, order;
    if IsTopicWord(word) {
      if word in wordFreq {
        wordFreq' := wordFreq[word := wordFreq[word] + 1];
      } else {
        wordFreq' := wordFreq[word := 1];
        order' := order + [word];
      }
    }
  }

  /** The entries listed from the finished table are the entries of the text. */
  lemma CountedEntries(words: seq<string>, wordFreq: map<string, nat>, order: seq<string>)
    requires Counted(words, |words|, wordFreq, order)
    ensures forall k :: 0 <= k < |order| ==> order[k] in wordFreq
    ensures seq(|order|, k requires 0 <= k < |order| && order[k] in wordFreq => Entry(order[k], wordFreq[order[k]]))
      == Entries(words)
  {
    assert words[..|words|] == words;
  }

  /**
   * `getMainTopics`, given the tokens of the lower-cased text: counts the words longer
   * than three characters in a table, then keeps the five most frequent.
   */
  method MainTopics(words: seq<string>) returns (topics: seq<string>)
    ensures topics == Topics(words)
  {
    var wordFreq: map<string, nat> := map[];
    var order: seq<string> := [];
    for i := 0 to |words|
      invariant Counted(words, i, wordFreq, order)
    {
      var freq', order' := CountWord(wordFreq, order, words[i]);
      CountStep(words, i, wordFreq, order, freq', order');
      wordFreq, order := freq', order';
    }
    CountedEntries(words, wordFreq, order);
    var entries := seq(|order|, k requires 0 <= k < |order| && order[k] in wordFreq => Entry(order[k], wordFreq[order[k]]));
    var top := Take(SortByRank(entries, EntryRank), 5);
    topics := seq(|top|, k requires 0 <= k < |top| => top[k].word);
  }

  /** The frequency table has one entry per word. */
  lemma EntriesDistinct(words: seq<string>)
    ensures Distinct(Entries(words))
  {
    var seen := FirstSeen(words);
    var entries := Entries(words);
    forall i, j | 0 <= i < j < |entries| ensures entries[i] != entries[j] {
      assert entries[i].word == seen[i] && entries[j].word == seen[j];
    }
  }

  /** Each entry of the table pairs a word first seen in the text with its count. */
  lemma EntryIsCount(words: seq<string>, e: Entry)
    requires e in multiset(Entries(words))
    ensures e.word in FirstSeen(words) && e.count == Occurrences(words, e.word)
  {
    var entries := Entries(words);
    var m :| 0 <= m < |entries| && entries[m] == e;
  }

  /** Each counted word has an entry in the table. */
  lemma WordHasEntry(words: seq<string>, w: string) returns (e: Entry)
    requires w in words && IsTopicWord(w)
    ensures e in multiset(Entries(words)) && e.word == w
  {
    var seen := FirstSeen(words);
    var m :| 0 <= m < |seen| && seen[m] == w;
    e := Entries(words)[m];
  }

  /** Each sorted entry pairs a word first seen in the text with its count, and no two are alike. */
  lemma SortedEntries(words: seq<string>) returns (sorted: seq<Entry>)
    ensures sorted == SortByRank(Entries(words), EntryRank)
    ensures forall p :: 0 <= p < |sorted| ==>
      sorted[p].word in FirstSeen(words) && sorted[p].count == Occurrences(words, sorted[p].word)
    ensures forall w :: w in words && IsTopicWord(w) ==> exists p :: 0 <= p < |sorted| && sorted[p].word == w
    ensures Distinct(sorted)
  {
    sorted := SortByRank(Entries(words), EntryRank);
    forall p | 0 <= p < |sorted|
      ensures sorted[p].word in FirstSeen(words) && sorted[p].count == Occurrences(words, sorted[p].word)
    {
      assert sorted[p] in multiset(sorted);
      EntryIsCount(words, sorted[p]);
    }
    forall w | w in words && IsTopicWord(w)
      ensures exists p :: 0 <= p < |sorted| && sorted[p].word == w
    {
      var e := WordHasEntry(words, w);
      assert e in multiset(sorted);
      var p :| 0 <= p < |sorted| && sorted[p] == e;
    }
    EntriesDistinct(words);
    DistinctPermutation(Entries(words), sorted);
  }

  /** The topics are the words of the first entries in frequency order. */
  lemma TopicsOfSorted(words: seq<string>) returns (sorted: seq<Entry>)
    ensures sorted == SortByRank(Entries(words), EntryRank)
    ensures |Topics(words)| <= 5 && |Topics(words)| <= |sorted|
    ensures forall k :: 0 <= k < |Topics(words)| ==> Topics(words)[k] == sorted[k].word
  {
    sorted := SortByRank(Entries(words), EntryRank);
  }

  /**
   * The main topics are at most five distinct words longer than three characters
   * taken from the text, listed by non-increasing frequency.
   */
  lemma TopicsAreMostFrequent(words: seq<string>)
    ensures |Topics(words)| <= 5
    ensures forall k :: 0 <= k < |Topics(words)| ==>
      IsTopicWord(Topics(words)[k]) && Topics(words)[k] in words
    ensures Distinct(Topics(words))
    ensures forall i, j :: 0 <= i < j < |Topics(words)| ==>
      Occurrences(words, Topics(words)[i]) >= Occurrences(words, Topics(words)[j])
  {
    var sorted := SortedEntries(words);
    var _ := TopicsOfSorted(words);
    var t := Topics(words);
    assert Distinct(t);
    forall i, j | 0 <= i < j < |t|
      ensures Occurrences(words, t[i]) >= Occurrences(words, t[j])
    {
      assert !Outranks(EntryRank(sorted[j]), EntryRank(sorted[i]));
    }
  }

  /** No word left out of the main topics occurs more often than a word chosen. */
  lemma TopicsLeaveOutLessFrequent(words: seq<string>, w: string, k: nat)
    requires w in words && IsTopicWord(w) && w !in Topics(words) && k < |Topics(words)|
    ensures Occurrences(words, w) <= Occurrences(words, Topics(words)[k])
  {
    var sorted := SortedEntries(words);
    var _ := TopicsOfSorted(words);
    var p :| 0 <= p < |sorted| && sorted[p].word == w;
    assert !Outranks(EntryRank(sorted[p]), EntryRank(sorted[k]));
  }

  // ---------------------------------------------------------------- generateExtractiveSummary

  /** A sentence, trimmed, with its TF-IDF score and its position in the text. */
  datatype ScoredSentence = ScoredSentence(sentence: string, score: real, index: nat)

  /** The first sort, `b.score - a.score`: highest score first. */
  function ByScore(s: ScoredSentence): Rank {
    Rank(0, s.score)
  }

  /** The second sort, `a.index - b.index`: document order. */
  function ByIndex(s: ScoredSentence): Rank {
    Rank(-(s.index as int), 0.0)
  }

  /** `Math.max(3, Math.ceil(n * 0.3))`, where `⌈0.3·n⌉ = ⌈3n/10⌉`. */
  function SummaryLength(n: nat): (r: nat)
    ensures r >= 3 && 10 * r >= 3 * n
    ensures r > 3 ==> 10 * (r - 1) < 3 * n
  {
    var c := (3 * n + 9) / 10;
    if c < 3 then 3 else c
  }

  /** `sentences.map((sentence, index) => ...)`, each scored by `score(sentences, index)`. */
  function ScoreAll(sentences: seq<string>, score: (seq<string>, nat) -> real): (r: seq<ScoredSentence>)
    ensures |r| == |sentences|
  {
    seq(|sentences|, k requires 0 <= k < |sentences| => ScoredSentence(Trim(sentences[k]), score(sentences, k), k))
  }

  /** The best-scored sentences, back in document order. */
  function SelectSentences(sentences: seq<string>, score: (seq<string>, nat) -> real): seq<ScoredSentence> {
    var best := Take(SortByRank(ScoreAll(sentences, score), ByScore), SummaryLength(|sentences|));
    SortByRank(best, ByIndex)
  }

  /** `.map(item => item.sentence)`. */
  function SentenceTexts(selected: seq<ScoredSentence>): (r: seq<string>)
    ensures |r| == |selected|
  {
    seq(|selected|, k requires 0 <= k < |selected| => selected[k].sentence)
  }

  /** Every scored sentence is the one scored at its own position. */
  lemma ScoredAtIndex(sentences: seq<string>, score: (seq<string>, nat) -> real, e: ScoredSentence)
    requires e in multiset(ScoreAll(sentences, score))
    ensures e.index < |sentences| && e == ScoreAll(sentences, score)[e.index]
  {
    var all := ScoreAll(sentences, score);
    var m :| 0 <= m < |all| && all[m] == e;
  }

  /** No two sentences share a position. */
  lemma ScoreAllDistinct(sentences: seq<string>, score: (seq<string>, nat) -> real)
    ensures Distinct(ScoreAll(sentences, score))
  {
    var all := ScoreAll(sentences, score);
    forall i, j | 0 <= i < j < |all| ensures all[i] != all[j] {
      assert all[i].index == i && all[j].index == j;
    }
  }

  /** The best-scored sentences: a prefix of the score order, so scored at least as high as the rest. */
  lemma BestSentences(sentences: seq<string>, score: (seq<string>, nat) -> real) returns (sorted: seq<ScoredSentence>, best: seq<ScoredSentence>)
    ensures sorted == SortByRank(ScoreAll(sentences, score), ByScore)
    ensures best == Take(sorted, SummaryLength(|sentences|)) && best == sorted[..|best|]
    ensures forall p :: 0 <= p < |sorted| ==> sorted[p].index < |sentences| && sorted[p] == ScoreAll(sentences, score)[sorted[p].index]
    ensures Distinct(best)
  {
    var all := ScoreAll(sentences, score);
    sorted := SortByRank(all, ByScore);
    best := Take(sorted, SummaryLength(|sentences|));
    forall p | 0 <= p < |sorted|
      ensures sorted[p].index < |sentences| && sorted[p] == all[sorted[p].index]
    {
      assert sorted[p] in multiset(sorted);
      ScoredAtIndex(sentences, score, sorted[p]);
    }
    ScoreAllDistinct(sentences, score);
    DistinctPermutation(all, sorted);
  }

  /** The selection is a reordering of the best-scored prefix, sorted by position. */
  lemma SelectionFacts(sentences: seq<string>, score: (seq<string>, nat) -> real)
    returns (sorted: seq<ScoredSentence>, best: seq<ScoredSentence>, sel: seq<ScoredSentence>)
    ensures sorted == SortByRank(ScoreAll(sentences, score), ByScore) && multiset(sorted) == multiset(ScoreAll(sentences, score))
    ensures |best| <= |sorted| && best == sorted[..|best|] && |best| == Min(|sentences|, SummaryLength(|sentences|))
    ensures forall p :: 0 <= p < |sorted| ==> sorted[p].index < |sentences| && sorted[p] == ScoreAll(sentences, score)[sorted[p].index]
    ensures sel == SelectSentences(sentences, score)
    ensures multiset(sel) == multiset(best) && |sel| == |best| && Distinct(sel) && SortedBy(sel, ByIndex)
    ensures forall k :: 0 <= k < |sel| ==> sel[k].index < |sentences| && sel[k] == ScoreAll(sentences, score)[sel[k].index]
  {
    sorted, best := BestSentences(sentences, score);
    sel := SortByRank(best, ByIndex);
    DistinctPermutation(best, sel);
    forall k | 0 <= k < |sel|
      ensures sel[k].index < |sentences| && sel[k] == ScoreAll(sentences, score)[sel[k].index]
    {
      assert sel[k] in multiset(best);
      var p :| 0 <= p < |best| && best[p] == sel[k];
      assert sel[k] == sorted[p];
    }
  }

  /**
   * The selection keeps `min(n, max(3, ⌈3n/10⌉))` sentences, each the trimmed sentence
   * at its position, with that sentence's score.
   */
  lemma SelectionCount(sentences: seq<string>, score: (seq<string>, nat) -> real)
    ensures |SelectSentences(sentences, score)| == Min(|sentences|, SummaryLength(|sentences|))
    ensures forall k :: 0 <= k < |SelectSentences(sentences, score)| ==>
      var e := SelectSentences(sentences, score)[k];
      e.index < |sentences| && e.sentence == Trim(sentences[e.index]) && e.score == score(sentences, e.index)
  {
    var sorted, best, sel := SelectionFacts(sentences, score);
  }

  /** The selected sentences appear in strictly increasing document order. */
  lemma SelectionInDocumentOrder(sentences: seq<string>, score: (seq<string>, nat) -> real)
    ensures forall i, j :: 0 <= i < j < |SelectSentences(sentences, score)| ==>
      SelectSentences(sentences, score)[i].index < SelectSentences(sentences, score)[j].index
  {
    var sorted, best, sel := SelectionFacts(sentences, score);
    var all := ScoreAll(sentences, score);
    forall i, j | 0 <= i < j < |sel| ensures sel[i].index < sel[j].index {
      assert !Outranks(ByIndex(sel[j]), ByIndex(sel[i]));
      assert sel[i] != sel[j];
      assert sel[i] == all[sel[i].index] && sel[j] == all[sel[j].index];
    }
  }

  /** No sentence left out of the selection scores higher than a sentence in it. */
  lemma SelectionIsBest(sentences: seq<string>, score: (seq<string>, nat) -> real, m: nat, k: nat)
    requires m < |sentences| && k < |SelectSentences(sentences, score)|
    requires forall q :: 0 <= q < |SelectSentences(sentences, score)| ==> SelectSentences(sentences, score)[q].index != m
    ensures score(sentences, m) <= SelectSentences(sentences, score)[k].score
  {
    var sorted, best, sel := SelectionFacts(sentences, score);
    var x := ScoreAll(sentences, score)[m];
    assert x in multiset(sorted);
    assert x !in sel;
    assert x !in multiset(best);
    assert sel[k] in multiset(best);
    PrefixDominates(sorted, ByScore, |best|, x, sel[k]);
  }

  /** The `analysis` record: word and character counts and reading times. */
  datatype Analysis = Analysis(
    originalWords: nat, summaryWords: nat, originalChars: nat, summaryChars: nat,
    readingTime: nat, summaryReadingTime: nat)

  /** What a summariser returns; the analysis is `{}` (here `None`) when there is no sentence. */
  datatype Summary = Summary(topics: seq<string>, summary: string, conclusion: string, analysis: Option<Analysis>)

  const NoSentencesMessage := "Text is too short or contains no complete sentences."

  const ConclusionMarkers: seq<string> := ["conclusion", "finally", "therefore", "thus", "in summary"]

  /** Some conclusion marker occurs in the lower-cased sentence. */
  predicate HasConclusion(sentence: string) {
    exists k :: 0 <= k < |ConclusionMarkers| && Includes(ToLower(sentence), ConclusionMarkers[k])
  }

  /** `hasConclusion ? lastSentence : ''`. */
  function ConclusionOf(sentences: seq<string>): string
    requires sentences != []
  {
    var last := sentences[|sentences| - 1];
    if HasConclusion(last) then last else ""
  }

  /** The analysis of a text and its summary. */
  function AnalysisOf(text: string, summary: string): Analysis {
    Analysis(WordCount(text), WordCount(summary), |text|, |summary|,
             ReadingTime(WordCount(text)), ReadingTime(WordCount(summary)))
  }

  /**
   * `generateExtractiveSummary(text)`: with `tokenize` the word tokenizer and
   * `score(sentences, index)` the TF-IDF score of a sentence among all of them.
   */
  function ExtractiveSummary(text: string, tokenize: string -> seq<string>, score: (seq<string>, nat) -> real): Summary {
    var cleaned := CleanText(text);
    var sentences := SplitIntoSentences(cleaned);
    if sentences == [] then
      Summary([], NoSentencesMessage, "", None)
    else
      var summary := Join(SentenceTexts(SelectSentences(sentences, score)), " ");
      Summary(Topics(tokenize(ToLower(cleaned))), summary, ConclusionOf(sentences), Some(AnalysisOf(text, summary)))
  }

  /**
   * Without a complete sentence in the cleaned text the summary is the fixed message,
   * with no topics, no conclusion and no analysis; with one, the analysis is present.
   */
  lemma ExtractiveNoSentences(text: string, tokenize: string -> seq<string>, score: (seq<string>, nat) -> real)
    ensures !HasCompleteSentence(CleanText(text)) ==>
      ExtractiveSummary(text, tokenize, score) == Summary([], NoSentencesMessage, "", None)
    ensures HasCompleteSentence(CleanText(text)) ==>
      ExtractiveSummary(text, tokenize, score).analysis.Some?
  {
    NoSentences(CleanText(text));
  }

  /** The trimmed sentences at the given positions. */
  function TrimmedAt(sentences: seq<string>, positions: seq<nat>): (r: seq<string>)
    requires forall k :: 0 <= k < |positions| ==> positions[k] < |sentences|
    ensures |r| == |positions|
  {
    seq(|positions|, k requires 0 <= k < |positions| => Trim(sentences[positions[k]]))
  }

  /** The positions of scored sentences. */
  function PositionsOf(selected: seq<ScoredSentence>): (r: seq<nat>)
    ensures |r| == |selected|
    ensures forall k :: 0 <= k < |r| ==> r[k] == selected[k].index
  {
    seq(|selected|, k requires 0 <= k < |selected| => selected[k].index)
  }

  /** Scored sentences that are the trimmed sentences at their positions. */
  lemma TextsAtPositions(sentences: seq<string>, selected: seq<ScoredSentence>)
    requires forall k :: 0 <= k < |selected| ==>
      selected[k].index < |sentences| && selected[k].sentence == Trim(sentences[selected[k].index])
    ensures SentenceTexts(selected) == TrimmedAt(sentences, PositionsOf(selected))
  {
  }

  /** The positions of the selected sentences, in increasing order. */
  lemma SelectedPositions(sentences: seq<string>, score: (seq<string>, nat) -> real) returns (positions: seq<nat>)
    ensures |positions| == Min(|sentences|, SummaryLength(|sentences|))
    ensures forall k :: 0 <= k < |positions| ==> positions[k] < |sentences|
    ensures forall i, j :: 0 <= i < j < |positions| ==> positions[i] < positions[j]
    ensures SentenceTexts(SelectSentences(sentences, score)) == TrimmedAt(sentences, positions)
  {
    var sel := SelectSentences(sentences, score);
    SelectionCount(sentences, score);
    SelectionInDocumentOrder(sentences, score);
    positions := PositionsOf(sel);
    TextsAtPositions(sentences, sel);
  }

  /** The summary field when the cleaned text has sentences. */
  lemma ExtractiveSummaryText(text: string, tokenize: string -> seq<string>, score: (seq<string>, nat) -> real)
    requires SplitIntoSentences(CleanText(text)) != []
    ensures ExtractiveSummary(text, tokenize, score).summary ==
      Join(SentenceTexts(SelectSentences(SplitIntoSentences(CleanText(text)), score)), " ")
    ensures ExtractiveSummary(text, tokenize, score).topics == Topics(tokenize(ToLower(CleanText(text))))
  {
  }

  /**
   * With sentences, the summary joins, by single spaces, the trimmed sentences at
   * strictly increasing positions, `min(n, max(3, ⌈3n/10⌉))` of them; the topics are those
   * of the lower-cased cleaned text.
   */
  lemma ExtractiveSummaryContent(text: string, tokenize: string -> seq<string>, score: (seq<string>, nat) -> real)
    returns (positions: seq<nat>)
    requires SplitIntoSentences(CleanText(text)) != []
    ensures |positions| == Min(|SplitIntoSentences(CleanText(text))|, SummaryLength(|SplitIntoSentences(CleanText(text))|))
    ensures forall k :: 0 <= k < |positions| ==> positions[k] < |SplitIntoSentences(CleanText(text))|
    ensures forall i, j :: 0 <= i < j < |positions| ==> positions[i] < positions[j]
    ensures ExtractiveSummary(text, tokenize, score).summary ==
      Join(TrimmedAt(SplitIntoSentences(CleanText(text)), positions), " ")
    ensures ExtractiveSummary(text, tokenize, score).topics == Topics(tokenize(ToLower(CleanText(text))))
  {
    ExtractiveSummaryText(text, tokenize, score);
    positions := SelectedPositions(SplitIntoSentences(CleanText(text)), score);
  }

  /**
   * The conclusion is the last (untrimmed) sentence exactly when that sentence contains
   * a conclusion marker, and empty otherwise.
   */
  lemma ConclusionRule(sentences: seq<string>)
    requires sentences != [] && IsSentenceMatch(sentences[|sentences| - 1])
    ensures ConclusionOf(sentences) == sentences[|sentences| - 1] <==> HasConclusion(sentences[|sentences| - 1])
    ensures !HasConclusion(sentences[|sentences| - 1]) ==> ConclusionOf(sentences) == ""
  {
  }

  /** With sentences, the summary's conclusion follows the rule above. */
  lemma ExtractiveConclusion(text: string, tokenize: string -> seq<string>, score: (seq<string>, nat) -> real)
    requires SplitIntoSentences(CleanText(text)) != []
    ensures ExtractiveSummary(text, tokenize, score).conclusion == ConclusionOf(SplitIntoSentences(CleanText(text)))
    ensures IsSentenceMatch(SplitIntoSentences(CleanText(text))[|SplitIntoSentences(CleanText(text))| - 1])
  {
  }

  // ---------------------------------------------------------------- POST

  /** The `text` field of the request body. */
  datatype TextField = Missing | NonString | Str(value: string)

  /** The request: a body that is not JSON (with the parser's message), or its `text` and `type`. */
  datatype TextRequest = Unreadable(message: string) | Request(text: TextField, kind: string)

  /** What a summariser produced: a summary, or the message of the error it threw. */
  datatype Outcome = Produced(result: Summary) | Threw(message: string)

  /** The route's reply: the formatted summary (its topics line and parts), or a JSON error. */
  datatype TextResponse =
    | Formatted(topicsLine: string, result: Summary)
    | Error(status: nat, error: string, details: Option<string>)

  const TopicsPrefix := "The main topics discussed are: "
  const NoTopicsLine := "No clear main topics identified."
  const FailedToProcess := "Failed to process request"
  const InvalidText := "Invalid text input"
  const TextTooShort := "Text is too short. Please provide at least 100 characters."
  const FailedToSummarise := "Failed to generate summary. Please try with different text."

  /** The topics sentence at the head of the formatted summary: the topics joined by `", "`. */
  function TopicsLine(topics: seq<string>): (r: string)
    ensures topics == [] ==> r == NoTopicsLine
    ensures topics != [] ==> StartsWith(r, TopicsPrefix) && EndsWith(r, ".")
    ensures topics != [] ==>
              && |r| == |TopicsPrefix| + |Join(topics, ", ")| + 1
              && r[|TopicsPrefix|..|r| - 1] == Join(topics, ", ")
  {
    if |topics| > 0 then TopicsPrefix + Join(topics, ", ") + "." else NoTopicsLine
  }

  /**
   * POST: `kind` is the request's `type` (extractive unless it is `"abstractive"`), and
   * `abstractive` is what the generative summariser produced for this text. A body that
   * is not JSON is a 400 whose details are the parser's message.
   */
  function Post(request: TextRequest, abstractive: Outcome,
                tokenize: string -> seq<string>, score: (seq<string>, nat) -> real): TextResponse {
    if request.Unreadable? then
      Error(400, FailedToProcess, Some(request.message))
    else
    var text, kind := request.text, request.kind;
    if !text.Str? || text.value == "" then
      Error(400, FailedToProcess, Some(InvalidText))
    else if |text.value| < 100 then
      Error(400, FailedToProcess, Some(TextTooShort))
    else
      var outcome := if kind == "abstractive" then abstractive else Produced(ExtractiveSummary(text.value, tokenize, score));
      match outcome
      case Produced(result) => Formatted(TopicsLine(result.topics), result)
      case Threw(message) => Error(500, if message == "" then FailedToSummarise else message, None)
  }

  /**
   * A body that is not JSON is a 400 carrying the parser's message; a missing, non-string
   * or empty text is rejected as invalid and a text under 100 characters as too short, all
   * with 400 and "Failed to process request"; every other request is answered with the
   * extractive summary unless the abstractive one was asked for, and a summariser's error
   * is a 500 carrying its message.
   */
  lemma PostValidation(request: TextRequest, abstractive: Outcome,
                       tokenize: string -> seq<string>, score: (seq<string>, nat) -> real)
    ensures var r := Post(request, abstractive, tokenize, score);
      && (request.Unreadable? ==> r == Error(400, FailedToProcess, Some(request.message)))
      && (request.Request? ==>
            var text, kind := request.text, request.kind;
            && (r.Error? && r.status == 400 <==> !text.Str? || |text.value| < 100)
            && (!text.Str? || text.value == "" ==> r == Error(400, FailedToProcess, Some(InvalidText)))
            && (text.Str? && 0 < |text.value| < 100 ==> r == Error(400, FailedToProcess, Some(TextTooShort)))
            && (text.Str? && |text.value| >= 100 && kind != "abstractive" ==>
                  r == Formatted(TopicsLine(ExtractiveSummary(text.value, tokenize, score).topics),
                                 ExtractiveSummary(text.value, tokenize, score)))
            && (text.Str? && |text.value| >= 100 && kind == "abstractive" && abstractive.Threw? ==>
                  r.Error? && r.status == 500 && r.details == None
                  && r.error == (if abstractive.message == "" then FailedToSummarise else abstractive.message)))
  {
  }
}
