/**
 * `processTranscript` of the YouTube route (src/app/api/youtube/route.js): the
 * transcript's caption texts become one line, the line is cut into sentences at runs
 * of `.!?`, and the kept sentences give a five-sentence summary and up to eight
 * bullet points.
 */
module Transcript {
  import opened Strings
  import opened Lists
  import opened YouTube

  /** `s.replace(/\[.*?\]/g, '')`: each `[` up to the first `]` on the same line goes. */
  function RemoveBracketed(s: string): (r: string)
    ensures |r| <= |s|
    decreases |s|
  {
    if s == [] then []
    else
      if s[0] == '[' then
        var k := FindFrom(s, 1, c => c == ']' || c == '\n' || c == '\r');
        if k < |s| && s[k] == ']' then
          RemoveBracketed(s[k + 1..])
        else [s[0]] + RemoveBracketed(s[1..])
      else [s[0]] + RemoveBracketed(s[1..])
  }

  /** `items.map(i => i.text.trim())`. */
  function TrimmedTexts(items: seq<Item>): seq<string> {
    seq(|items|, i requires 0 <= i < |items| => Trim(items[i].text))
  }

  /** `parts.map(s => s.trim())`. */
  function TrimAll(parts: seq<string>): (r: seq<string>)
    ensures |r| == |parts| && forall k :: 0 <= k < |r| ==> r[k] == Trim(parts[k])
    decreases |parts|
  {
    if parts == [] then [] else [Trim(parts[0])] + TrimAll(parts[1..])
  }

  /** The transcript as one line: trimmed texts joined by spaces, whitespace collapsed, `[...]` removed. */
  function FullText(items: seq<Item>): string {
    RemoveBracketed(CollapseSpaces(Join(TrimmedTexts(items), " ")))
  }

  /** The sentence filter: longer than 20 characters and not only digits. */
  predicate IsContentSentence(s: string) {
    |s| > 20 && !AllDigits(s)
  }

  /** A trimmed sentence fit for the summary: no terminator inside, no whitespace at either end. */
  predicate IsCleanSentence(s: string) {
    IsTrimmed(s) && NoneIn(s, IsTerminator)
  }

  /** The transcript's sentences: split on runs of `.!?`, trimmed, filtered. */
  function Sentences(items: seq<Item>): seq<string> {
    Filter(TrimAll(Split(FullText(items), IsTerminator)), IsContentSentence)
  }

  /** Every sentence is trimmed, has no terminator inside and passes the sentence filter. */
  lemma SentencesClean(items: seq<Item>)
    ensures var r := Sentences(items);
            forall k :: 0 <= k < |r| ==> IsCleanSentence(r[k]) && IsContentSentence(r[k])
  {
    var pieces := Split(FullText(items), IsTerminator);
    var trimmed := TrimAll(pieces);
    forall k | 0 <= k < |trimmed| ensures IsCleanSentence(trimmed[k]) {
      TrimNoneIn(pieces[k], IsTerminator);
    }
  }

  /** The summary: the first five sentences joined by `'. '`, then `'.'`. */
  function Summary(sentences: seq<string>): string {
    Join(Take(sentences, 5), ". ") + "."
  }

  /** Trimming ignores one extra space in front. */
  lemma TrimSpaceFront(s: string)
    ensures Trim([' '] + s) == Trim(s)
  {
    assert ([' '] + s)[1..] == s;
  }

  /**
   * The summary splits back into its sentences: splitting it on `.!?` and trimming the
   * pieces gives the first five sentences and the empty piece after the final `'.'`.
   */
  lemma {:induction false} SummarySplitsBack(sentences: seq<string>)
    requires |sentences| > 0
    requires forall k :: 0 <= k < |sentences| ==> IsCleanSentence(sentences[k])
    ensures TrimAll(Split(Summary(sentences), IsTerminator)) == Take(sentences, 5) + [""]
  {
    JoinSplitsBack(Take(sentences, 5));
  }

  /** A joined list of sentences with its final `'.'`: the first sentence, `'.'`, `' '`, then the rest joined. */
  lemma JoinedSentences(p: string, rest: seq<string>)
    requires |rest| > 0
    ensures Join([p] + rest, ". ") + "." == p + ['.'] + ([' '] + (Join(rest, ". ") + "."))
  {
    JoinStep(p, rest, ". ");
    PeriodSpaceAssoc(p, Join(rest, ". "));
  }

  lemma JoinStep(p: string, rest: seq<string>, sep: string)
    requires |rest| > 0
    ensures Join([p] + rest, sep) == p + sep + Join(rest, sep)
  {
    ConsParts([p] + rest, p, rest);
  }

  lemma PeriodSpaceAssoc(p: string, j: string)
    ensures p + ". " + j + "." == p + ['.'] + ([' '] + (j + "."))
  {
  }

  /** Trimming the pieces ignores the space glued onto the first piece after a sentence. */
  lemma TrimAllGlued(p: string, sy: seq<string>)
    requires IsTrimmed(p) && |sy| > 0
    ensures TrimAll([p] + ([[' '] + sy[0]] + sy[1..])) == [p] + TrimAll(sy)
  {
    TrimTrimmed(p);
    TrimSpaceFront(sy[0]);
    var glued := [[' '] + sy[0]] + sy[1..];
    assert ([p] + glued)[1..] == glued;
    assert glued[1..] == sy[1..];
  }

  /** The pieces of a joined summary: the first sentence, then the rest's pieces with `' '` glued on. */
  lemma SplitAfterSentence(p: string, rest: seq<string>)
    requires NoneIn(p, IsTerminator) && |rest| > 0
    ensures var sy := Split(Join(rest, ". ") + ".", IsTerminator);
            Split(Join([p] + rest, ". ") + ".", IsTerminator) == [p] + ([[' '] + sy[0]] + sy[1..])
  {
    JoinedSentences(p, rest);
    SplitPeriodSpace(p, Join(rest, ". ") + ".");
  }

  /** A sentence, `'.'`, `' '` and more text split to the sentence, then the text's pieces with `' '` glued on. */
  lemma SplitPeriodSpace(p: string, y: string)
    requires NoneIn(p, IsTerminator)
    ensures var sy := Split(y, IsTerminator);
            Split(p + ['.'] + ([' '] + y), IsTerminator) == [p] + ([[' '] + sy[0]] + sy[1..])
  {
    SplitCons(p, '.', [' '] + y, IsTerminator);
    SplitPrefix([' '], y, IsTerminator);
  }

  /** One more clean sentence in front keeps the round trip. */
  lemma SentenceSplitsBack(p: string, rest: seq<string>)
    requires IsCleanSentence(p) && |rest| > 0
    requires TrimAll(Split(Join(rest, ". ") + ".", IsTerminator)) == rest + [""]
    ensures TrimAll(Split(Join([p] + rest, ". ") + ".", IsTerminator)) == [p] + (rest + [""])
  {
    var sy := Split(Join(rest, ". ") + ".", IsTerminator);
    var whole := Split(Join([p] + rest, ". ") + ".", IsTerminator);
    SplitAfterSentence(p, rest);
    assert whole == [p] + ([[' '] + sy[0]] + sy[1..]);
    TrimAllGlued(p, sy);
    assert TrimAll(whole) == [p] + TrimAll(sy);
  }

  /** A single sentence and its final `'.'` split to the sentence and an empty piece. */
  lemma OneSentenceSplitsBack(p: string)
    requires IsCleanSentence(p)
    ensures TrimAll(Split(Join([p], ". ") + ".", IsTerminator)) == [p, ""]
  {
    TrimTrimmed(p);
    assert Join([p], ". ") + "." == p + ['.'] + [];
    SplitCons(p, '.', [], IsTerminator);
    assert Split([], IsTerminator) == [[]];
    assert TrimAll([[]]) == [[]];
  }

  /** The round trip for a single sentence, stated on the list. */
  lemma SingleSplitsBack(parts: seq<string>)
    requires |parts| == 1 && IsCleanSentence(parts[0])
    ensures TrimAll(Split(Join(parts, ". ") + ".", IsTerminator)) == parts + [""]
  {
    OneSentenceSplitsBack(parts[0]);
    SingletonSnoc(parts, "");
  }

  /** The round trip for the tail gives it for the whole list. */
  lemma TailSplitsBack(parts: seq<string>)
    requires |parts| > 1 && IsCleanSentence(parts[0])
    requires TrimAll(Split(Join(parts[1..], ". ") + ".", IsTerminator)) == parts[1..] + [""]
    ensures TrimAll(Split(Join(parts, ". ") + ".", IsTerminator)) == parts + [""]
  {
    HeadTailSnoc(parts, "");
    SentenceSplitsBack(parts[0], parts[1..]);
  }

  /**
   * Joining clean sentences with `'. '`, adding `'.'`, splitting on `.!?` and trimming
   * the pieces gives the sentences back, followed by one empty piece.
   */
  lemma {:induction false} JoinSplitsBack(parts: seq<string>)
    requires |parts| > 0
    requires forall k :: 0 <= k < |parts| ==> IsCleanSentence(parts[k])
    ensures TrimAll(Split(Join(parts, ". ") + ".", IsTerminator)) == parts + [""]
    decreases |parts|
  {
    if |parts| == 1 {
      SingleSplitsBack(parts);
    } else {
      var rest := parts[1..];
      assert forall k :: 0 <= k < |rest| ==> IsCleanSentence(rest[k]) by {
        forall k | 0 <= k < |rest| ensures IsCleanSentence(rest[k]) {
          assert rest[k] == parts[k + 1];
        }
      }
      JoinSplitsBack(rest);
      TailSplitsBack(parts);
    }
  }

  const Subscribe := "subscribe"
  const LikeThisVideo := "like this video"
  const ClickTheBell := "click the bell"
  const DontForgetTo := "don't forget to"

  /** The calls to action a bullet point must not contain (compared in lower case). */
  predicate MentionsCallToAction(lower: string) {
    Includes(lower, Subscribe) || Includes(lower, LikeThisVideo) ||
    Includes(lower, ClickTheBell) || Includes(lower, DontForgetTo)
  }

  /** The bullet filter: 8 to 30 whitespace-separated words and no call to action. */
  predicate IsBulletSentence(s: string) {
    var words := |Split(s, IsSpace)|;
    8 <= words <= 30 && !MentionsCallToAction(ToLower(s))
  }

  /** Up to eight bullet sentences, each followed by `'.'`. */
  function BulletPoints(sentences: seq<string>): seq<string> {
    var picked := Take(Filter(sentences, IsBulletSentence), 8);
    seq(|picked|, i requires 0 <= i < |picked| => picked[i] + ".")
  }

  /**
   * At most eight bullet points, each a bullet sentence of the input followed by `'.'`:
   * the first eight bullet sentences, in their order.
   */
  lemma BulletPointsShape(sentences: seq<string>)
    ensures var r, bullets := BulletPoints(sentences), Filter(sentences, IsBulletSentence);
            && |r| == Min(8, |bullets|)
            && forall k :: 0 <= k < |r| ==> r[k] == bullets[k] + "."
    ensures var r := BulletPoints(sentences);
            && |r| <= 8
            && forall k :: 0 <= k < |r| ==>
                 |r[k]| > 0 && r[k][|r[k]| - 1] == '.' &&
                 r[k][..|r[k]| - 1] in sentences && IsBulletSentence(r[k][..|r[k]| - 1])
  {
    var picked := Take(Filter(sentences, IsBulletSentence), 8);
    var r := BulletPoints(sentences);
    assert forall k :: 0 <= k < |r| ==> r[k][..|r[k]| - 1] == picked[k];
  }

  datatype Processed = Processed(summary: string, bulletPoints: seq<string>)

  /** `processTranscript(transcript)`. */
  function ProcessTranscript(items: seq<Item>): Processed {
    var sentences := Sentences(items);
    Processed(Summary(sentences), BulletPoints(sentences))
  }
}
