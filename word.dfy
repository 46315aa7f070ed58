/**
 * The Word-document assistant (src/app/api/word/route.js). POST takes the text of an
 * uploaded document, makes it the module's current document, adds it to the TF-IDF
 * corpus and answers with a three-sentence summary, the sentiment and up to five key
 * phrases; PUT answers a query with the (at most two) sentences of the current document
 * that share the largest part of the query's words. The word tokenizer, the sentence
 * tokenizer, the part-of-speech tagger, the sentiment analyser and the extraction of a
 * document's text are not modelled: they are inputs.
 */
module WordAssistant {
  import opened Wrappers
  import opened Strings
  import opened Lists

  /** A token with its part-of-speech tag. */
  datatype Tagged = Tagged(token: string, tag: string)

  /** The language tools the handlers call. */
  datatype Tools = Tools(
    tokenize: string -> seq<string>,   // `natural.WordTokenizer().tokenize`
    sentences: string -> seq<string>,  // `natural.SentenceTokenizer().tokenize`
    tag: seq<string> -> seq<Tagged>,   // `BrillPOSTagger(...).tag(words).taggedWords`
    sentiment: seq<string> -> real)    // `SentimentAnalyzer(...).getSentiment`

  // ---------------------------------------------------------------- calculateSimilarity

  /** `tokens.includes(t)`, as a test on `t`. */
  function Among(tokens: seq<string>): string -> bool {
    t => t in tokens
  }

  /**
   * The share of the query's tokens, counted with repetition, that occur among the
   * sentence's tokens, both lower-cased first; `None` when the query has no token, where
   * the source divides `0 / 0` and gets `NaN`.
   */
  function Similarity(sentence: string, query: string, tokenize: string -> seq<string>): (r: Option<real>)
    ensures r.None? <==> tokenize(ToLower(query)) == []
    ensures r.Some? ==> 0.0 <= r.value <= 1.0
  {
    var sentenceTokens := tokenize(ToLower(sentence));
    var queryTokens := tokenize(ToLower(query));
    if queryTokens == [] then None
    else
      var matches := |Filter(queryTokens, Among(sentenceTokens))|;
      assert matches as real <= |queryTokens| as real;
      Some(matches as real / |queryTokens| as real)
  }

  /** `calculateSimilarity(sentence, query)`: counts the matching query tokens one by one. */
  method CalculateSimilarity(sentence: string, query: string, tokenize: string -> seq<string>) returns (r: Option<real>)
    ensures r == Similarity(sentence, query, tokenize)
  {
    var sentenceTokens := tokenize(ToLower(sentence));
    var queryTokens := tokenize(ToLower(query));
    var matchCount := 0;
    for i := 0 to |queryTokens|
      invariant matchCount == |Filter(queryTokens[..i], Among(sentenceTokens))|
    {
      assert queryTokens[..i + 1] == queryTokens[..i] + [queryTokens[i]];
      FilterConcat(queryTokens[..i], [queryTokens[i]], Among(sentenceTokens));
      if queryTokens[i] in sentenceTokens {
        matchCount := matchCount + 1;
      }
    }
    assert queryTokens[..|queryTokens|] == queryTokens;
    if queryTokens == [] {
      return None;
    }
    return Some(matchCount as real / |queryTokens| as real);
  }

  lemma DivideBySelf(x: real)
    requires x != 0.0
    ensures x / x == 1.0
  {
  }

  /** Filtering by a test every element passes keeps the whole list. */
  lemma {:induction false} FilterAll<T>(s: seq<T>, p: T -> bool)
    requires forall k :: 0 <= k < |s| ==> p(s[k])
    ensures Filter(s, p) == s
    decreases |s|
  {
    if s != [] {
      FilterAll(s[1..], p);
    }
  }

  /** Filtering by a test no element passes keeps nothing. */
  lemma {:induction false} FilterNone<T>(s: seq<T>, p: T -> bool)
    requires forall k :: 0 <= k < |s| ==> !p(s[k])
    ensures Filter(s, p) == []
    decreases |s|
  {
    if s != [] {
      FilterNone(s[1..], p);
    }
  }

  /**
   * A sentence holding every query token is fully similar to the query, and one holding
   * none of them not at all.
   */
  lemma SimilarityExtremes(sentence: string, query: string, tokenize: string -> seq<string>)
    requires tokenize(ToLower(query)) != []
    ensures var st, qt := tokenize(ToLower(sentence)), tokenize(ToLower(query));
            && ((forall k :: 0 <= k < |qt| ==> qt[k] in st) ==> Similarity(sentence, query, tokenize) == Some(1.0))
            && ((forall k :: 0 <= k < |qt| ==> qt[k] !in st) ==> Similarity(sentence, query, tokenize) == Some(0.0))
  {
    var st, qt := tokenize(ToLower(sentence)), tokenize(ToLower(query));
    if forall k :: 0 <= k < |qt| ==> qt[k] in st {
      FilterAll(qt, Among(st));
      DivideBySelf(|qt| as real);
    }
    if forall k :: 0 <= k < |qt| ==> qt[k] !in st {
      FilterNone(qt, Among(st));
    }
  }

  // ---------------------------------------------------------------- PUT: answer selection

  /** A relevant sentence, trimmed, with its similarity to the query. */
  datatype Candidate = Candidate(sentence: string, score: real)

  /** Similarity above this makes a sentence relevant. */
  const Threshold: real := 0.2

  /** What the `forEach` callback makes of one sentence: a candidate, or nothing. */
  function Assess(sentence: string, query: string, tokenize: string -> seq<string>): (r: Option<Candidate>)
    ensures r.Some? <==>
              Trim(sentence) != "" && Similarity(sentence, query, tokenize).Some? &&
              Similarity(sentence, query, tokenize).value > Threshold
    ensures r.Some? ==> r.value == Candidate(Trim(sentence), Similarity(sentence, query, tokenize).value)
  {
    if Trim(sentence) == "" then None
    else
      var similarity := Similarity(sentence, query, tokenize);
      if similarity.Some? && similarity.value > Threshold then Some(Candidate(Trim(sentence), similarity.value))
      else None
  }

  /** `Assess` for a fixed query, as a function of the sentence. */
  function AssessFor(query: string, tokenize: string -> seq<string>): string -> Option<Candidate> {
    sentence => Assess(sentence, query, tokenize)
  }

  /** The candidates of the sentences, in document order. */
  function Candidates(sentences: seq<string>, query: string, tokenize: string -> seq<string>): seq<Candidate> {
    Collect(sentences, AssessFor(query, tokenize))
  }

  /**
   * The candidates are exactly what the relevant sentences give: every relevant sentence
   * gives a candidate, every candidate comes from a relevant sentence, and there are no
   * more candidates than sentences.
   */
  lemma CandidatesExactly(sentences: seq<string>, query: string, tokenize: string -> seq<string>)
    ensures var cs := Candidates(sentences, query, tokenize);
            && |cs| <= |sentences|
            && (forall k :: 0 <= k < |sentences| && Assess(sentences[k], query, tokenize).Some? ==>
                  Assess(sentences[k], query, tokenize).value in cs)
            && (forall c :: c in cs ==> exists k :: 0 <= k < |sentences| && Assess(sentences[k], query, tokenize) == Some(c))
  {
    var f := AssessFor(query, tokenize);
    CollectExactly(sentences, f);
    var cs := Candidates(sentences, query, tokenize);
    forall c | c in cs ensures exists k :: 0 <= k < |sentences| && Assess(sentences[k], query, tokenize) == Some(c) {
      var i :| 0 <= i < |cs| && cs[i] == c;
      var m :| 0 <= m < |sentences| && f(sentences[m]) == Some(cs[i]);
      assert Assess(sentences[m], query, tokenize) == Some(c);
    }
  }

  /** The `forEach` over the sentences that pushes each relevant one. */
  method RelevantSentences(sentences: seq<string>, query: string, tokenize: string -> seq<string>)
    returns (relevant: seq<Candidate>)
    ensures relevant == Candidates(sentences, query, tokenize)
  {
    relevant := [];
    for i := 0 to |sentences|
      invariant relevant == Collect(sentences[..i], AssessFor(query, tokenize))
    {
      assert sentences[..i + 1][..i] == sentences[..i];
      var sentence := sentences[i];
      assert AssessFor(query, tokenize)(sentence) == Assess(sentence, query, tokenize);
      if Trim(sentence) != "" {
        var similarity := CalculateSimilarity(sentence, query, tokenize);
        if similarity.Some? && similarity.value > Threshold {
          relevant := relevant + [Candidate(Trim(sentence), similarity.value)];
        }
      }
    }
    assert sentences[..|sentences|] == sentences;
  }

  /** The sort key: the score, highest first. */
  function CandidateRank(c: Candidate): Rank {
    Rank(0, c.score)
  }

  /**
   * The two best candidates, best first: taken from the candidates, and no candidate
   * left out scores above one that is taken.
   */
  function TopAnswers(candidates: seq<Candidate>): (top: seq<Candidate>)
    ensures |top| == Min(2, |candidates|)
    ensures multiset(top) <= multiset(candidates)
    ensures SortedBy(top, CandidateRank)
    ensures forall c, d :: c in multiset(candidates) - multiset(top) && d in top ==> c.score <= d.score
  {
    var top := Take(SortByRank(candidates, CandidateRank), 2);
    TakeBest(candidates, CandidateRank, 2);
    top
  }

  function SentencesOf(candidates: seq<Candidate>): (r: seq<string>)
    ensures |r| == |candidates| && forall k :: 0 <= k < |r| ==> r[k] == candidates[k].sentence
  {
    seq(|candidates|, k requires 0 <= k < |candidates| => candidates[k].sentence)
  }

  const NoAnswer := "I couldn't find a relevant answer to your query in the document."

  /** The answer: the best two sentences joined by a space, or the fixed reply when none is relevant. */
  function Answer(candidates: seq<Candidate>): (r: string)
    ensures candidates == [] ==> r == NoAnswer
    ensures candidates != [] ==> r == Join(SentencesOf(TopAnswers(candidates)), " ")
  {
    var top := TopAnswers(candidates);
    if |top| > 0 then Join(SentencesOf(top), " ") else NoAnswer
  }

  // ---------------------------------------------------------------- getKeyPhrases

  /** `taggedWord.tag.startsWith('N')`. */
  predicate IsNoun(w: Tagged) {
    |w.tag| > 0 && w.tag[0] == 'N'
  }

  /** The test is `startsWith` with a one-letter prefix. */
  lemma IsNounStartsWith(w: Tagged)
    ensures IsNoun(w) <==> StartsWith(w.tag, "N")
  {
    assert IsNoun(w) ==> w.tag[..1] == "N";
  }

  function TokensOf(run: seq<Tagged>): (r: seq<string>)
    ensures |r| == |run| && forall k :: 0 <= k < |r| ==> r[k] == run[k].token
  {
    seq(|run|, k requires 0 <= k < |run| => run[k].token)
  }

  lemma TokensOfSnoc(run: seq<Tagged>, w: Tagged)
    ensures TokensOf(run + [w]) == TokensOf(run) + [w.token]
  {
  }

  /** A run of tokens becomes a phrase when it has at least two. */
  function Emit(tokens: seq<string>): seq<string> {
    if |tokens| >= 2 then [Join(tokens, " ")] else []
  }

  /** How many nouns `t` starts with. */
  function LeadingNouns(t: seq<Tagged>): (n: nat)
    ensures n <= |t|
    ensures forall k :: 0 <= k < n ==> IsNoun(t[k])
    ensures n < |t| ==> !IsNoun(t[n])
    decreases |t|
  {
    if t == [] || !IsNoun(t[0]) then 0 else 1 + LeadingNouns(t[1..])
  }

  /**
   * The noun phrases, read from the front: skip what is not a noun, take the whole run
   * of nouns that follows, keep it if it has two or more tokens, and go on after it.
   */
  function Phrases(t: seq<Tagged>): seq<string>
    decreases |t|
  {
    if t == [] then []
    else if !IsNoun(t[0]) then Phrases(t[1..])
    else
      var n := LeadingNouns(t);
      Emit(TokensOf(t[..n])) + Phrases(t[n..])
  }

  /** `t[i..j]` is a run of nouns that cannot be extended on either side. */
  predicate MaximalRun(t: seq<Tagged>, i: nat, j: nat) {
    && i < j <= |t|
    && (forall k :: i <= k < j ==> IsNoun(t[k]))
    && (i == 0 || !IsNoun(t[i - 1]))
    && (j == |t| || !IsNoun(t[j]))
  }

  /** `Phrases` on a list that starts with a noun: the leading run, then the rest. */
  lemma PhrasesNounHead(t: seq<Tagged>)
    requires t != [] && IsNoun(t[0])
    ensures 0 < LeadingNouns(t)
    ensures Phrases(t) == Emit(TokensOf(t[..LeadingNouns(t)])) + Phrases(t[LeadingNouns(t)..])
  {
  }

  /** `Phrases` on a list that starts with another word: that word is skipped. */
  lemma PhrasesOtherHead(t: seq<Tagged>)
    requires t != [] && !IsNoun(t[0])
    ensures Phrases(t) == Phrases(t[1..])
  {
  }

  /** A maximal run of `t[m..]` is one of `t` when `t[m..]` follows a word that is not a noun. */
  lemma RunShift(t: seq<Tagged>, m: nat, i: nat, j: nat)
    requires m <= |t| && MaximalRun(t[m..], i, j)
    requires m == 0 || i > 0 || !IsNoun(t[m - 1])
    ensures MaximalRun(t, m + i, m + j) && t[m..][i..j] == t[m + i..m + j]
  {
    forall k | m + i <= k < m + j ensures IsNoun(t[k]) {
      assert t[k] == t[m..][k - m];
    }
    if i > 0 {
      assert t[m + i - 1] == t[m..][i - 1];
    }
    if m + j < |t| {
      assert t[m + j] == t[m..][j];
    }
  }

  /** A maximal run of `t` that starts at `m` or later is one of `t[m..]`. */
  lemma RunUnshift(t: seq<Tagged>, m: nat, i: nat, j: nat)
    requires MaximalRun(t, i, j) && m <= i
    ensures MaximalRun(t[m..], i - m, j - m) && t[m..][i - m..j - m] == t[i..j]
  {
    forall k | i - m <= k < j - m ensures IsNoun(t[m..][k]) {
      assert t[m..][k] == t[k + m];
    }
    if i > m {
      assert t[m..][i - m - 1] == t[i - 1];
    }
    if j < |t| {
      assert t[m..][j - m] == t[j];
    }
    forall k | 0 <= k < j - i ensures t[m..][i - m..j - m][k] == t[i..j][k] {
      assert t[m..][i - m..j - m][k] == t[m..][i - m + k] == t[i + k];
    }
  }

  /** Every phrase is the tokens of a maximal run of two or more nouns, joined by spaces. */
  lemma {:induction false} PhrasesAreRuns(t: seq<Tagged>, p: string)
    requires p in Phrases(t)
    ensures exists i: nat, j: nat :: MaximalRun(t, i, j) && j - i >= 2 && p == Join(TokensOf(t[i..j]), " ")
    decreases |t|
  {
    if !IsNoun(t[0]) {
      PhrasesOtherHead(t);
      PhrasesAreRuns(t[1..], p);
      var i: nat, j: nat :| MaximalRun(t[1..], i, j) && j - i >= 2 && p == Join(TokensOf(t[1..][i..j]), " ");
      RunShift(t, 1, i, j);
    } else {
      PhrasesNounHead(t);
      var n := LeadingNouns(t);
      if p in Phrases(t[n..]) {
        PhrasesAreRuns(t[n..], p);
        var i: nat, j: nat :| MaximalRun(t[n..], i, j) && j - i >= 2 && p == Join(TokensOf(t[n..][i..j]), " ");
        assert t[n..][0] == t[n];
        RunShift(t, n, i, j);
      } else {
        assert p in Emit(TokensOf(t[..n]));
        assert t[0..n] == t[..n];
        assert MaximalRun(t, 0, n);
      }
    }
  }

  /** Every maximal run of two or more nouns gives a phrase. */
  lemma {:induction false} RunsArePhrases(t: seq<Tagged>, i: nat, j: nat)
    requires MaximalRun(t, i, j) && j - i >= 2
    ensures Join(TokensOf(t[i..j]), " ") in Phrases(t)
    decreases |t|
  {
    if IsNoun(t[0]) && i == 0 {
      LeadingRunPhrase(t, j);
    } else {
      var n := HeadLength(t);
      RunPastHead(t, i, j);
      RunUnshift(t, n, i, j);
      RunsArePhrases(t[n..], i - n, j - n);
      PhrasesAfterHead(t, n, Join(TokensOf(t[n..][i - n..j - n]), " "));
    }
  }

  /** The run a list starts with, when it is maximal, is its first phrase. */
  lemma LeadingRunPhrase(t: seq<Tagged>, j: nat)
    requires MaximalRun(t, 0, j) && j >= 2
    ensures Join(TokensOf(t[0..j]), " ") in Phrases(t)
  {
    PhrasesNounHead(t);
    var n := LeadingNouns(t);
    assert n == j;
    assert t[0..j] == t[..n];
    assert Emit(TokensOf(t[..n])) == [Join(TokensOf(t[0..j]), " ")];
  }

  /** How much of `t` the first step of `Phrases` consumes: the leading run, or one other word. */
  function HeadLength(t: seq<Tagged>): (n: nat)
    requires t != []
    ensures 0 < n <= |t|
  {
    if IsNoun(t[0]) then LeadingNouns(t) else 1
  }

  /** A maximal run that is not at the front starts after the list's first group. */
  lemma RunPastHead(t: seq<Tagged>, i: nat, j: nat)
    requires MaximalRun(t, i, j) && (i > 0 || !IsNoun(t[0]))
    ensures HeadLength(t) <= i
  {
    if IsNoun(t[0]) {
      var n := LeadingNouns(t);
      assert !IsNoun(t[i - 1]);
      assert IsNoun(t[i]);
    }
  }

  /** A phrase of what follows the list's first group is a phrase of the list. */
  lemma PhrasesAfterHead(t: seq<Tagged>, n: nat, x: string)
    requires t != [] && n == HeadLength(t)
    requires x in Phrases(t[n..])
    ensures x in Phrases(t)
  {
    if IsNoun(t[0]) {
      PhrasesNounHead(t);
    } else {
      PhrasesOtherHead(t);
    }
  }

  /** What the first step of `Phrases` emits: the leading run's phrase, if any. */
  function HeadPhrases(t: seq<Tagged>): seq<string>
    requires t != []
  {
    if IsNoun(t[0]) then Emit(TokensOf(t[..LeadingNouns(t)])) else []
  }

  /** One step of `Phrases`. */
  lemma PhrasesStep(t: seq<Tagged>, n: nat)
    requires t != [] && n == HeadLength(t)
    ensures Phrases(t) == HeadPhrases(t) + Phrases(t[n..])
  {
    if IsNoun(t[0]) {
      PhrasesNounHead(t);
    } else {
      PhrasesOtherHead(t);
      assert [] + Phrases(t[1..]) == Phrases(t[1..]);
    }
  }

  /** The first step of `Phrases` is the same when more follows a word that is not a noun. */
  lemma HeadAppend(a: seq<Tagged>, b: seq<Tagged>, n: nat)
    requires a != [] && !IsNoun(a[|a| - 1]) && n == HeadLength(a)
    ensures HeadLength(a + b) == n && HeadPhrases(a + b) == HeadPhrases(a)
    ensures (a + b)[n..] == a[n..] + b
  {
    assert (a + b)[0] == a[0];
    if IsNoun(a[0]) {
      var n := LeadingNouns(a);
      assert n < |a|;
      LeadingNounsAppend(a, b);
      assert (a + b)[..n] == a[..n];
    }
  }

  /** Phrases never straddle a word that is not a noun. */
  lemma {:induction false} PhrasesAppend(a: seq<Tagged>, b: seq<Tagged>)
    requires a == [] || !IsNoun(a[|a| - 1])
    ensures Phrases(a + b) == Phrases(a) + Phrases(b)
    decreases |a|
  {
    if a == [] {
      assert a + b == b;
    } else {
      var n := HeadLength(a);
      HeadAppend(a, b, n);
      PhrasesStep(a, n);
      PhrasesStep(a + b, n);
      PhrasesAppend(a[n..], b);
      AppendAssoc(HeadPhrases(a), Phrases(a[n..]), Phrases(b));
    }
  }

  lemma {:induction false} LeadingNounsAppend(a: seq<Tagged>, b: seq<Tagged>)
    requires LeadingNouns(a) < |a|
    ensures LeadingNouns(a + b) == LeadingNouns(a)
    decreases |a|
  {
    if IsNoun(a[0]) {
      assert (a + b)[1..] == a[1..] + b;
      LeadingNounsAppend(a[1..], b);
    }
  }

  /** A run of nouns alone gives its one phrase, if it is long enough. */
  lemma PhrasesOfRun(run: seq<Tagged>)
    requires forall k :: 0 <= k < |run| ==> IsNoun(run[k])
    ensures Phrases(run) == Emit(TokensOf(run))
  {
    if run != [] {
      PhrasesNounHead(run);
      assert LeadingNouns(run) == |run|;
      assert run[..|run|] == run;
      assert run[|run|..] == [];
    }
  }

  /** A run of nouns closed by a word that is not a noun gives the run's phrase. */
  lemma PhrasesOfClosedRun(run: seq<Tagged>, w: Tagged)
    requires forall k :: 0 <= k < |run| ==> IsNoun(run[k])
    requires !IsNoun(w)
    ensures Phrases(run + [w]) == Emit(TokensOf(run))
  {
    var t := run + [w];
    PhrasesOtherHead([w]);
    assert [w][1..] == [];
    if run == [] {
      assert t == [w];
    } else {
      LeadingNounsOfRun(run, w);
      PhrasesNounHead(t);
      assert t[..|run|] == run;
      assert t[|run|..] == [w];
    }
  }

  lemma {:induction false} LeadingNounsOfRun(run: seq<Tagged>, w: Tagged)
    requires forall k :: 0 <= k < |run| ==> IsNoun(run[k])
    requires !IsNoun(w)
    ensures LeadingNouns(run + [w]) == |run|
    decreases |run|
  {
    if run != [] {
      assert (run + [w])[1..] == run[1..] + [w];
      LeadingNounsOfRun(run[1..], w);
    }
  }

  /** The loop's state after word `i`: the phrases closed so far and the open run of nouns. */
  ghost predicate Grouped(t: seq<Tagged>, i: nat, start: nat, phrases: seq<string>, currentPhrase: seq<string>) {
    && start <= i <= |t|
    && (start == 0 || !IsNoun(t[start - 1]))
    && (forall k :: start <= k < i ==> IsNoun(t[k]))
    && currentPhrase == TokensOf(t[start..i])
    && phrases == Phrases(t[..start])
  }

  /** A word that is not a noun closes the open run. */
  lemma CloseRun(t: seq<Tagged>, i: nat, start: nat, phrases: seq<string>, currentPhrase: seq<string>)
    requires Grouped(t, i, start, phrases, currentPhrase) && i < |t| && !IsNoun(t[i])
    ensures Grouped(t, i + 1, i + 1, phrases + Emit(currentPhrase), [])
  {
    assert t[..i + 1] == t[..start] + (t[start..i] + [t[i]]);
    PhrasesAppend(t[..start], t[start..i] + [t[i]]);
    PhrasesOfClosedRun(t[start..i], t[i]);
  }

  /** At the end, the open run is the last phrase, if it is long enough. */
  lemma LastRun(t: seq<Tagged>, start: nat, phrases: seq<string>, currentPhrase: seq<string>)
    requires Grouped(t, |t|, start, phrases, currentPhrase)
    ensures phrases + Emit(currentPhrase) == Phrases(t)
  {
    var run := t[start..];
    assert t == t[..start] + run && t[start..|t|] == run;
    PhrasesAppend(t[..start], run);
    PhrasesOfRun(run);
  }

  /** `[...new Set(phrases)].slice(0, 5)`. */
  function KeyPhrases(t: seq<Tagged>): seq<string> {
    Take(Unique(Phrases(t)), 5)
  }

  /**
   * The key phrases: at most five, none twice, each a phrase of the text, in the order
   * they first occur; fewer than five only when every phrase is among them, and a
   * phrase left out first occurs after every kept one: the first five distinct phrases.
   */
  lemma KeyPhrasesFacts(t: seq<Tagged>)
    ensures var r, ps := KeyPhrases(t), Phrases(t);
            && |r| <= 5
            && Distinct(r)
            && (forall k :: 0 <= k < |r| ==> r[k] in ps)
            && (forall i, j :: 0 <= i < j < |r| ==> FirstIndex(ps, r[i]) < FirstIndex(ps, r[j]))
            && (|r| < 5 ==> forall k :: 0 <= k < |ps| ==> ps[k] in r)
            && (forall p :: p in ps && p !in r ==>
                  |r| == 5 && forall k :: 0 <= k < |r| ==> FirstIndex(ps, r[k]) < FirstIndex(ps, p))
  {
    var ps := Phrases(t);
    var u := Unique(ps);
    UniqueOrder(ps);
    var r := KeyPhrases(t);
    assert forall k :: 0 <= k < |r| ==> r[k] == u[k];
    forall p | p in ps && p !in r
      ensures |r| == 5 && forall k :: 0 <= k < |r| ==> FirstIndex(ps, r[k]) < FirstIndex(ps, p)
    {
      var i :| 0 <= i < |ps| && ps[i] == p;
      assert p in u;
      var m :| 0 <= m < |u| && u[m] == p;
      assert |r| <= m;
    }
  }

  /** `getKeyPhrases(text)`: groups the tagged words in one pass, then de-duplicates. */
  method GetKeyPhrases(text: string, tools: Tools) returns (keyPhrases: seq<string>)
    ensures keyPhrases == KeyPhrases(tools.tag(tools.tokenize(text)))
  {
    var taggedWords := tools.tag(tools.tokenize(text));
    var phrases: seq<string> := [];
    var currentPhrase: seq<string> := [];
    ghost var start := 0;
    for i := 0 to |taggedWords|
      invariant Grouped(taggedWords, i, start, phrases, currentPhrase)
    {
      var taggedWord := taggedWords[i];
      IsNounStartsWith(taggedWord);
      if StartsWith(taggedWord.tag, "N") {
        assert taggedWords[start..i + 1] == taggedWords[start..i] + [taggedWord];
        TokensOfSnoc(taggedWords[start..i], taggedWord);
        currentPhrase := currentPhrase + [taggedWord.token];
      } else {
        CloseRun(taggedWords, i, start, phrases, currentPhrase);
        if |currentPhrase| > 0 {
          if |currentPhrase| >= 2 {
            phrases := phrases + [Join(currentPhrase, " ")];
          }
          currentPhrase := [];
        }
        start := i + 1;
      }
    }
    LastRun(taggedWords, start, phrases, currentPhrase);
    if |currentPhrase| >= 2 {
      phrases := phrases + [Join(currentPhrase, " ")];
    } else {
      assert Emit(currentPhrase) == [];
    }
    assert phrases == Phrases(taggedWords);
    keyPhrases := Take(Unique(phrases), 5);
  }

  // ---------------------------------------------------------------- the handlers

  /** The summary POST returns: the first three sentences joined by a space. */
  function DocumentSummary(sentences: seq<string>): string {
    Join(Take(sentences, 3), " ")
  }

  /** The uploaded file: missing, unreadable (extraction throws), or the text extracted from it. */
  datatype Upload = NoFile | Unreadable | Document(text: string)

  datatype PostResponse =
    | Processed(summary: string, sentiment: real, keyPhrases: seq<string>, message: string)
    | PostFailed(status: nat, error: string)

  /** PUT's body: not JSON at all, or JSON with an optional `query` field. */
  datatype PutRequest = Malformed | Body(query: Option<string>)

  datatype PutResponse =
    | Answered(response: string)
    | PutFailed(status: nat, error: string)

  const UploadRequired := "Please upload a .doc or .docx file"
  const DocumentError := "Error processing document. Please try again."
  const DocumentProcessed := "Document processed successfully"
  const UploadFirst := "Please upload a document first"
  const QueryRequired := "Please provide a query"
  const QueryError := "Error processing your query. Please try again."

  /** What PUT answers to `query` about `document`. */
  function AnswerFor(document: string, query: string, tools: Tools): string {
    Answer(Candidates(tools.sentences(document), query, tools.tokenize))
  }

  /** The route module's state: the current document and the TF-IDF corpus it feeds. */
  class Assistant {
    /** `documentContent`: the text of the last document processed, `''` before any. */
    var documentContent: string
    /** The documents added to `tfidf`, oldest first. */
    var corpus: seq<string>

    constructor ()
      ensures documentContent == "" && corpus == []
    {
      documentContent := "";
      corpus := [];
    }

    /** `POST`: processes an uploaded document and makes it the current one. */
    method Post(upload: Upload, tools: Tools) returns (r: PostResponse)
      modifies this
      ensures upload.NoFile? ==> r == PostFailed(400, UploadRequired) && unchanged(this)
      ensures upload.Unreadable? ==> r == PostFailed(500, DocumentError) && unchanged(this)
      ensures upload.Document? ==>
                && documentContent == upload.text
                && corpus == old(corpus) + [upload.text]
                && r == Processed(DocumentSummary(tools.sentences(upload.text)),
                                  tools.sentiment(tools.tokenize(upload.text)),
                                  KeyPhrases(tools.tag(tools.tokenize(upload.text))),
                                  DocumentProcessed)
    {
      match upload {
        case NoFile =>
          return PostFailed(400, UploadRequired);
        case Unreadable =>
          return PostFailed(500, DocumentError);
        case Document(text) =>
          documentContent := text;
          var sentences := tools.sentences(documentContent);
          var summary := Join(Take(sentences, 3), " ");
          var sentiment := tools.sentiment(tools.tokenize(documentContent));
          corpus := corpus + [documentContent];
          var keyPhrases := GetKeyPhrases(documentContent, tools);
          return Processed(summary, sentiment, keyPhrases, DocumentProcessed);
      }
    }

    /** `PUT`: answers a query from the current document. */
    method Put(request: PutRequest, tools: Tools) returns (r: PutResponse)
      ensures request.Malformed? ==> r == PutFailed(500, QueryError)
      ensures request.Body? && documentContent == "" ==> r == PutFailed(400, UploadFirst)
      ensures request.Body? && documentContent != "" && !Truthy(request.query) ==> r == PutFailed(400, QueryRequired)
      ensures request.Body? && documentContent != "" && Truthy(request.query) ==>
                r == Answered(AnswerFor(documentContent, request.query.value, tools))
    {
      if request.Malformed? {
        return PutFailed(500, QueryError);
      }
      if documentContent == "" {
        return PutFailed(400, UploadFirst);
      }
      if !Truthy(request.query) {
        return PutFailed(400, QueryRequired);
      }
      var query := request.query.value;
      var sentences := tools.sentences(documentContent);
      var relevantSentences := RelevantSentences(sentences, query, tools.tokenize);
      var top := TopAnswers(relevantSentences);
      var response := if |top| > 0 then Join(SentencesOf(top), " ") else NoAnswer;
      return Answered(response);
    }
  }

  /**
   * Each upload replaces the document queries are answered from: after two uploads, a
   * query is answered from the second document whatever the first was.
   */
  method UploadTwiceThenAsk(assistant: Assistant, first: string, second: string, query: string, tools: Tools)
    returns (answer: PutResponse)
    requires second != "" && query != ""
    modifies assistant
    ensures answer == Answered(AnswerFor(second, query, tools))
    ensures assistant.corpus == old(assistant.corpus) + [first, second]
  {
    var _ := assistant.Post(Document(first), tools);
    var _ := assistant.Post(Document(second), tools);
    answer := assistant.Put(Body(Some(query)), tools);
  }
}
