/**
 * `findRelevantContent` of the YouTube route (src/app/api/youtube/route.js): the
 * transcript is cut into chunks of ten caption lines, each chunk is scored against the
 * query's words, and the best three chunks are quoted with the first chunk's timestamp.
 */
module TranscriptSearch {
  import opened Strings
  import opened Lists
  import opened YouTube

  const MoreSpecificQuery := "Please provide a more specific query."
  const NoRelevantContent := "No relevant content found. Try rephrasing your query or using different keywords."
  const PartialNote := "\n\nNote: Some results may be partially relevant to your query."

  /** The query in lower case, trimmed. */
  function CleanQuery(query: string): string {
    Trim(ToLower(query))
  }

  predicate IsQueryWord(w: string) {
    |w| > 2
  }

  /** The query's whitespace-separated words longer than two characters. */
  function QueryWords(query: string): seq<string> {
    Filter(Split(CleanQuery(query), IsSpace), IsQueryWord)
  }

  // ---------------------------------------------------------------- chunks

  /** A chunk of up to ten caption lines (`MAX_CHUNK_SIZE` is 10). */
  datatype Chunk = Chunk(text: string, timestamp: string, startOffset: real)

  /** One caption line's text followed by a space, as the chunking loop appends it. */
  function Spaced(item: Item): string {
    item.text + " "
  }

  /** The caption texts of `items`, each followed by one space. */
  function SpacedText(items: seq<Item>): (r: string)
    ensures |r| >= |items|
    ensures items != [] ==> r[|r| - 1] == ' '
    decreases |items|
  {
    if items == [] then "" else SpacedText(items[..|items| - 1]) + Spaced(items[|items| - 1])
  }

  lemma SpacedTextSnoc(items: seq<Item>, a: nat, b: nat)
    requires a <= b < |items|
    ensures SpacedText(items[a..b + 1]) == SpacedText(items[a..b]) + Spaced(items[b])
  {
    assert items[a..b + 1][..b - a] == items[a..b];
  }

  lemma {:induction false} SpacedTextConcat(a: seq<Item>, b: seq<Item>)
    ensures SpacedText(a + b) == SpacedText(a) + SpacedText(b)
    decreases |b|
  {
    if b == [] {
      assert a + b == a;
    } else {
      var b' := b[..|b| - 1];
      var last := b[|b| - 1];
      assert (a + b)[..|a + b| - 1] == a + b';
      assert (a + b)[|a + b| - 1] == last;
      SpacedTextConcat(a, b');
      AppendAssoc(SpacedText(a), SpacedText(b'), Spaced(last));
    }
  }

  /** How many chunks `n` caption lines make: `⌈n / 10⌉`. */
  function ChunkCount(n: nat): nat {
    (n + 9) / 10
  }

  /** The lines of the `k`-th chunk: lines `10k` to `10k + 9`, or to the end. */
  function ChunkLines(items: seq<Item>, k: nat): seq<Item>
    requires 10 * k < |items|
  {
    items[10 * k..Min(10 * k + 10, |items|)]
  }

  /** The `k`-th chunk; only the first carries a timestamp. */
  function ChunkAt(items: seq<Item>, k: nat): Chunk
    requires ValidOffsets(items)
    requires 10 * k < |items|
  {
    var lines := ChunkLines(items, k);
    if k == 0 then Chunk(SpacedText(lines), FormatTime(items[0].offset), items[0].offset)
    else Chunk(SpacedText(lines), "", 0.0)
  }

  /** The first `m` chunks. */
  function FirstChunks(items: seq<Item>, m: nat): (r: seq<Chunk>)
    requires ValidOffsets(items) && m <= ChunkCount(|items|)
    ensures |r| == m
  {
    seq(m, k requires 0 <= k < m => ChunkAt(items, k))
  }

  /** The chunks of a transcript, in order. */
  function Chunks(items: seq<Item>): (r: seq<Chunk>)
    requires ValidOffsets(items)
    ensures |r| == ChunkCount(|items|)
  {
    FirstChunks(items, ChunkCount(|items|))
  }

  lemma FirstChunksSnoc(items: seq<Item>, m: nat)
    requires ValidOffsets(items) && m < ChunkCount(|items|)
    ensures 10 * m < |items| && FirstChunks(items, m + 1) == FirstChunks(items, m) + [ChunkAt(items, m)]
  {
  }

  /** The `k`-th chunk, closed after its tenth line, with the first line's stamp if it is the first. */
  lemma ClosedChunk(items: seq<Item>, k: nat, index: nat, current: Chunk)
    requires ValidOffsets(items) && index == 10 * k + 9 && index < |items|
    requires current.text == SpacedText(items[10 * k..index + 1])
    requires current.timestamp == (if k == 0 then FormatTime(items[0].offset) else "")
    requires current.startOffset == (if k == 0 then items[0].offset else 0.0)
    ensures current == ChunkAt(items, k)
  {
    assert Min(10 * k + 10, |items|) == index + 1;
    assert ChunkLines(items, k) == items[10 * k..index + 1];
  }

  /** A last, shorter chunk of `size` lines is the chunk `k` when the transcript has `10k + size` lines. */
  lemma LastChunk(items: seq<Item>, k: nat, size: nat, current: Chunk)
    requires ValidOffsets(items) && 0 < size < 10 && |items| == 10 * k + size
    requires current.text == SpacedText(items[10 * k..|items|])
    requires current.timestamp == (if k == 0 then FormatTime(items[0].offset) else "")
    requires current.startOffset == (if k == 0 then items[0].offset else 0.0)
    ensures current == ChunkAt(items, k)
    ensures ChunkCount(|items|) == k + 1
  {
    assert Min(10 * k + 10, |items|) == |items|;
  }

  /** A transcript of `10k` lines has `k` chunks. */
  lemma WholeChunks(n: nat, k: nat)
    requires n == 10 * k
    ensures ChunkCount(n) == k
  {
  }

  /** The chunks closed so far are the transcript's first chunks. */
  predicate ChunksSoFar(items: seq<Item>, chunks: seq<Chunk>)
    requires ValidOffsets(items)
  {
    forall k :: 0 <= k < |chunks| ==> 10 * k < |items| && chunks[k] == ChunkAt(items, k)
  }

  /** Closing the next chunk of the transcript keeps the closed chunks its first chunks. */
  lemma ChunksSoFarSnoc(items: seq<Item>, chunks: seq<Chunk>, c: Chunk)
    requires ValidOffsets(items) && ChunksSoFar(items, chunks)
    requires 10 * |chunks| < |items| && c == ChunkAt(items, |chunks|)
    ensures ChunksSoFar(items, chunks + [c])
  {
    var cs := chunks + [c];
    forall k | 0 <= k < |cs| ensures 10 * k < |items| && cs[k] == ChunkAt(items, k) {
      if k < |chunks| {
        assert cs[k] == chunks[k];
      }
    }
  }

  /** Once every chunk is closed, the closed chunks are the transcript's chunks. */
  lemma AllChunks(items: seq<Item>, chunks: seq<Chunk>)
    requires ValidOffsets(items) && ChunksSoFar(items, chunks) && |chunks| == ChunkCount(|items|)
    ensures chunks == Chunks(items)
  {
  }

  /**
   * The state of the chunking loop before the line at `index`: the closed chunks are the
   * first chunks of the transcript, and the open chunk holds the lines since the last
   * closed one.
   */
  predicate Filling(items: seq<Item>, index: nat, chunks: seq<Chunk>, text: string, timestamp: string, startOffset: real, chunkSize: nat)
    requires ValidOffsets(items)
  {
    && index <= |items|
    && chunkSize < 10 && index == 10 * |chunks| + chunkSize
    && ChunksSoFar(items, chunks)
    && text == SpacedText(items[10 * |chunks|..index])
    && timestamp == (if |chunks| == 0 && chunkSize > 0 then FormatTime(items[0].offset) else "")
    && startOffset == (if |chunks| == 0 && chunkSize > 0 then items[0].offset else 0.0)
  }

  /** One pass of the loop body keeps the loop state. */
  lemma LineAdded(items: seq<Item>, index: nat, chunks: seq<Chunk>, text: string, timestamp: string, startOffset: real, chunkSize: nat)
    requires ValidOffsets(items) && index < |items|
    requires Filling(items, index, chunks, text, timestamp, startOffset, chunkSize)
    ensures var text' := text + Spaced(items[index]);
            var timestamp' := if index == 0 then FormatTime(items[index].offset) else timestamp;
            var startOffset' := if index == 0 then items[index].offset else startOffset;
            if chunkSize + 1 >= 10 then Filling(items, index + 1, chunks + [Chunk(text', timestamp', startOffset')], "", "", 0.0, 0)
            else Filling(items, index + 1, chunks, text', timestamp', startOffset', chunkSize + 1)
  {
    if chunkSize + 1 >= 10 {
      LineClosesChunk(items, index, chunks, text, timestamp, startOffset, chunkSize);
    } else {
      LineFillsChunk(items, index, chunks, text, timestamp, startOffset, chunkSize);
    }
  }

  lemma LineFillsChunk(items: seq<Item>, index: nat, chunks: seq<Chunk>, text: string, timestamp: string, startOffset: real, chunkSize: nat)
    requires ValidOffsets(items) && index < |items| && chunkSize + 1 < 10
    requires Filling(items, index, chunks, text, timestamp, startOffset, chunkSize)
    ensures Filling(items, index + 1, chunks, text + Spaced(items[index]),
                    if index == 0 then FormatTime(items[index].offset) else timestamp,
                    if index == 0 then items[index].offset else startOffset, chunkSize + 1)
  {
    SpacedTextSnoc(items, 10 * |chunks|, index);
  }

  lemma LineClosesChunk(items: seq<Item>, index: nat, chunks: seq<Chunk>, text: string, timestamp: string, startOffset: real, chunkSize: nat)
    requires ValidOffsets(items) && index < |items| && chunkSize + 1 >= 10
    requires Filling(items, index, chunks, text, timestamp, startOffset, chunkSize)
    ensures 0 < index && Filling(items, index + 1, chunks + [Chunk(text + Spaced(items[index]), timestamp, startOffset)], "", "", 0.0, 0)
  {
    var closed := Chunk(text + Spaced(items[index]), timestamp, startOffset);
    assert closed == ChunkAt(items, |chunks|) by {
      SpacedTextSnoc(items, 10 * |chunks|, index);
      ClosedChunk(items, |chunks|, index, closed);
    }
    ChunksSoFarSnoc(items, chunks, closed);
    assert items[index + 1..index + 1] == [];
  }

  /**
   * The chunking loop of `findRelevantContent`: appends each line's text and a space
   * to the current chunk, stamps the chunk when the line is the transcript's first, and
   * closes the chunk after ten lines; a last, shorter chunk is kept when not empty.
   */
  method BuildChunks(items: seq<Item>) returns (chunks: seq<Chunk>)
    requires ValidOffsets(items)
    ensures chunks == Chunks(items)
  {
    chunks := [];
    var text, timestamp, startOffset := "", "", 0.0;
    var chunkSize := 0;
    NothingFilled(items);
    for index := 0 to |items|
      invariant Filling(items, index, chunks, text, timestamp, startOffset, chunkSize)
    {
      chunks, text, timestamp, startOffset, chunkSize :=
        AddLine(items, index, chunks, text, timestamp, startOffset, chunkSize);
    }
    LastLine(items, chunks, text, timestamp, startOffset, chunkSize);
    if text != "" {
      chunks := chunks + [Chunk(text, timestamp, startOffset)];
    }
  }

  /** Before the first line nothing is closed and the open chunk is empty. */
  lemma NothingFilled(items: seq<Item>)
    requires ValidOffsets(items)
    ensures Filling(items, 0, [], "", "", 0.0, 0)
  {
    assert items[0..0] == [];
  }

  /**
   * The `forEach` callback of the chunking loop for the line at `index`: its text and a
   * space go to the open chunk, the first line stamps it, and the tenth line closes it.
   */
  method AddLine(items: seq<Item>, index: nat, chunks0: seq<Chunk>, text0: string, timestamp0: string, startOffset0: real, chunkSize0: nat)
    returns (chunks: seq<Chunk>, text: string, timestamp: string, startOffset: real, chunkSize: nat)
    requires ValidOffsets(items) && index < |items|
    requires Filling(items, index, chunks0, text0, timestamp0, startOffset0, chunkSize0)
    ensures Filling(items, index + 1, chunks, text, timestamp, startOffset, chunkSize)
  {
    LineAdded(items, index, chunks0, text0, timestamp0, startOffset0, chunkSize0);
    chunks, timestamp, startOffset := chunks0, timestamp0, startOffset0;
    text := text0 + (items[index].text + " ");
    chunkSize := chunkSize0 + 1;
    if index == 0 {
      startOffset := items[index].offset;
      timestamp := FormatTime(items[index].offset);
    }
    if chunkSize >= 10 {
      chunks := chunks + [Chunk(text, timestamp, startOffset)];
      text, timestamp, startOffset := "", "", 0.0;
      chunkSize := 0;
    }
  }

  /** After the last line, the closed chunks and the open chunk when not empty are the transcript's chunks. */
  lemma LastLine(items: seq<Item>, chunks: seq<Chunk>, text: string, timestamp: string, startOffset: real, chunkSize: nat)
    requires ValidOffsets(items) && Filling(items, |items|, chunks, text, timestamp, startOffset, chunkSize)
    ensures text != "" ==> chunks + [Chunk(text, timestamp, startOffset)] == Chunks(items)
    ensures text == "" ==> chunks == Chunks(items)
  {
    if text != "" {
      var current := Chunk(text, timestamp, startOffset);
      LastChunk(items, |chunks|, chunkSize, current);
      ChunksSoFarSnoc(items, chunks, current);
      AllChunks(items, chunks + [current]);
    } else {
      WholeChunks(|items|, |chunks|);
      AllChunks(items, chunks);
    }
  }

  /** Every chunk but the last holds ten lines; the last holds one to ten. */
  lemma ChunkSizes(items: seq<Item>, k: nat)
    requires k < ChunkCount(|items|)
    ensures 10 * k < |items|
    ensures k < ChunkCount(|items|) - 1 ==> |ChunkLines(items, k)| == 10
    ensures k == ChunkCount(|items|) - 1 ==> 1 <= |ChunkLines(items, k)| <= 10
  {
  }

  /** Only the first chunk carries a timestamp, and it is the clock of the first line's offset. */
  lemma OnlyFirstStamped(items: seq<Item>, k: nat)
    requires ValidOffsets(items) && k < ChunkCount(|items|)
    ensures Chunks(items)[k].timestamp != "" <==> k == 0
    ensures k == 0 ==> Chunks(items)[k].timestamp == FormatTime(items[0].offset)
  {
    ChunkSizes(items, k);
  }

  /** The texts of `chunks`, concatenated. */
  function ChunkTexts(chunks: seq<Chunk>): string
    decreases |chunks|
  {
    if chunks == [] then "" else ChunkTexts(chunks[..|chunks| - 1]) + chunks[|chunks| - 1].text
  }

  /** The first `m` chunks together hold the first `min(10m, n)` lines. */
  lemma {:induction false} FirstChunksCover(items: seq<Item>, m: nat)
    requires ValidOffsets(items) && m <= ChunkCount(|items|)
    ensures ChunkTexts(FirstChunks(items, m)) == SpacedText(items[..Min(10 * m, |items|)])
    decreases m
  {
    if m > 0 {
      var k := m - 1;
      FirstChunksSnoc(items, k);
      var lo, hi := 10 * k, Min(10 * k + 10, |items|);
      assert Min(10 * m, |items|) == hi && Min(10 * k, |items|) == lo;
      var c := ChunkAt(items, k);
      assert c.text == SpacedText(items[lo..hi]);
      calc {
        ChunkTexts(FirstChunks(items, m));
        ChunkTexts(FirstChunks(items, k) + [c]);
        { ChunkTextsSnoc(FirstChunks(items, k), c); }
        ChunkTexts(FirstChunks(items, k)) + c.text;
        { FirstChunksCover(items, k); }
        SpacedText(items[..lo]) + SpacedText(items[lo..hi]);
        { SpacedTextConcat(items[..lo], items[lo..hi]); }
        SpacedText(items[..lo] + items[lo..hi]);
        { PrefixThenSlice(items, lo, hi); }
        SpacedText(items[..hi]);
      }
    }
  }

  lemma ChunkTextsSnoc(chunks: seq<Chunk>, c: Chunk)
    ensures ChunkTexts(chunks + [c]) == ChunkTexts(chunks) + c.text
  {
    assert (chunks + [c])[..|chunks|] == chunks;
  }

  /** Concatenating the chunk texts gives every line's text followed by a space, in order. */
  lemma ChunksCoverText(items: seq<Item>)
    requires ValidOffsets(items)
    ensures ChunkTexts(Chunks(items)) == SpacedText(items)
  {
    FirstChunksCover(items, ChunkCount(|items|));
    assert items[..Min(10 * ChunkCount(|items|), |items|)] == items;
  }

  // ---------------------------------------------------------------- scoring

  datatype ScoredChunk = ScoredChunk(chunk: Chunk, score: real, exactMatches: nat, partialMatches: nat)

  /** How many of the query words occur among the chunk's words, counted with repetition. */
  function ExactMatches(queryWords: seq<string>, chunkWords: seq<string>): (r: nat)
    ensures r <= |queryWords|
    decreases |queryWords|
  {
    if queryWords == [] then 0
    else
      ExactMatches(queryWords[..|queryWords| - 1], chunkWords) +
      (if queryWords[|queryWords| - 1] in chunkWords then 1 else 0)
  }

  /** A chunk word and a query word match partially when either contains the other. */
  predicate IsPartialMatch(chunkWord: string, queryWord: string) {
    Includes(chunkWord, queryWord) || Includes(queryWord, chunkWord)
  }

  /** How many chunk words match `queryWord` partially. */
  function PartialMatchesOf(queryWord: string, chunkWords: seq<string>): (r: nat)
    ensures r <= |chunkWords|
    decreases |chunkWords|
  {
    if chunkWords == [] then 0
    else
      PartialMatchesOf(queryWord, chunkWords[..|chunkWords| - 1]) +
      (if IsPartialMatch(chunkWords[|chunkWords| - 1], queryWord) then 1 else 0)
  }

  /** The partial matches of all query words. */
  function PartialMatches(queryWords: seq<string>, chunkWords: seq<string>): nat
    decreases |queryWords|
  {
    if queryWords == [] then 0
    else
      PartialMatches(queryWords[..|queryWords| - 1], chunkWords) +
      PartialMatchesOf(queryWords[|queryWords| - 1], chunkWords)
  }

  /** Every query word occurs in the text, and their first occurrences are strictly increasing. */
  predicate InOrder(text: string, queryWords: seq<string>) {
    (forall i :: 0 <= i < |queryWords| ==> IndexOf(text, queryWords[i]) != -1) &&
    (forall i :: 1 <= i < |queryWords| ==> IndexOf(text, queryWords[i]) > IndexOf(text, queryWords[i - 1]))
  }

  /**
   * The score of a chunk: 2 for the whole query, 1 per exact word, 0.5 per partial
   * match and 0.5 for the words in order, divided by a tenth of the chunk's word count.
   */
  function Scored(chunk: Chunk, cleanQuery: string, queryWords: seq<string>): ScoredChunk {
    var text := ToLower(chunk.text);
    var words := Split(text, IsSpace);
    ScoredChunk(chunk, PerTenthWord(RawScore(text, cleanQuery, queryWords, words), |words|),
                ExactMatches(queryWords, words), PartialMatches(queryWords, words))
  }

  /** The score before normalising: whole query, exact words, partial matches, order. */
  function RawScore(text: string, cleanQuery: string, queryWords: seq<string>, words: seq<string>): real {
    (if Includes(text, cleanQuery) then 2.0 else 0.0) + ExactMatches(queryWords, words) as real +
    0.5 * PartialMatches(queryWords, words) as real + (if InOrder(text, queryWords) then 0.5 else 0.0)
  }

  /** `score / (chunkWords.length * 0.1)`. */
  function PerTenthWord(raw: real, wordCount: nat): real
    requires wordCount > 0
  {
    raw / (wordCount as real * 0.1)
  }

  /**
   * The scoring callback of `findRelevantContent`: one pass over the query words, and
   * for each of them one pass over the chunk's words.
   */
  method ScoreChunk(chunk: Chunk, cleanQuery: string, queryWords: seq<string>) returns (scored: ScoredChunk)
    ensures scored == Scored(chunk, cleanQuery, queryWords)
  {
    var chunkText := ToLower(chunk.text);
    var chunkWords := Split(chunkText, IsSpace);
    var score := 0.0;
    var exactMatches := 0;
    var partialMatches := 0;
    if Includes(chunkText, cleanQuery) {
      score := score + 2.0;
    }
    var base := score;
    for i := 0 to |queryWords|
      invariant exactMatches == ExactMatches(queryWords[..i], chunkWords)
      invariant partialMatches == PartialMatches(queryWords[..i], chunkWords)
      invariant score == base + exactMatches as real + 0.5 * partialMatches as real
    {
      assert queryWords[..i + 1][..i] == queryWords[..i];
      var queryWord := queryWords[i];
      if queryWord in chunkWords {
        score := score + 1.0;
        exactMatches := exactMatches + 1;
      }
      score, partialMatches := MatchPartially(queryWord, chunkWords, score, partialMatches);
    }
    assert queryWords[..|queryWords|] == queryWords;
    if InOrder(chunkText, queryWords) {
      score := score + 0.5;
    }
    assert score == RawScore(chunkText, cleanQuery, queryWords, chunkWords);
    scored := ScoredChunk(chunk, score / (|chunkWords| as real * 0.1), exactMatches, partialMatches);
  }

  /**
   * The inner loop of the scoring callback: 0.5 more score and one more partial match
   * for each chunk word that contains the query word or is contained in it.
   */
  method MatchPartially(queryWord: string, chunkWords: seq<string>, score0: real, partial0: nat)
    returns (score: real, partialMatches: nat)
    ensures partialMatches == partial0 + PartialMatchesOf(queryWord, chunkWords)
    ensures score == score0 + 0.5 * (partialMatches - partial0) as real
  {
    score, partialMatches := score0, partial0;
    for j := 0 to |chunkWords|
      invariant partialMatches == partial0 + PartialMatchesOf(queryWord, chunkWords[..j])
      invariant score == score0 + 0.5 * (partialMatches - partial0) as real
    {
      assert chunkWords[..j + 1][..j] == chunkWords[..j];
      if IsPartialMatch(chunkWords[j], queryWord) {
        score := score + 0.5;
        partialMatches := partialMatches + 1;
      }
    }
    assert chunkWords[..|chunkWords|] == chunkWords;
  }

  /** A word matches itself partially. */
  lemma {:induction false} PartialOfMember(queryWord: string, chunkWords: seq<string>)
    requires queryWord in chunkWords
    ensures PartialMatchesOf(queryWord, chunkWords) >= 1
    decreases |chunkWords|
  {
    var last := chunkWords[|chunkWords| - 1];
    if last == queryWord {
      assert StartsWith(last, queryWord);
    } else {
      assert chunkWords == chunkWords[..|chunkWords| - 1] + [last];
      PartialOfMember(queryWord, chunkWords[..|chunkWords| - 1]);
    }
  }

  /** Every exact match is also a partial match. */
  lemma {:induction false} ExactWithinPartial(queryWords: seq<string>, chunkWords: seq<string>)
    ensures ExactMatches(queryWords, chunkWords) <= PartialMatches(queryWords, chunkWords)
    decreases |queryWords|
  {
    if queryWords != [] {
      ExactWithinPartial(queryWords[..|queryWords| - 1], chunkWords);
      if queryWords[|queryWords| - 1] in chunkWords {
        PartialOfMember(queryWords[|queryWords| - 1], chunkWords);
      }
    }
  }

  /**
   * When the chunk's words end with the empty word, every query word matches partially
   * at least once, because every word contains the empty word.
   */
  lemma {:induction false} EmptyWordMatchesAll(queryWords: seq<string>, chunkWords: seq<string>)
    requires |chunkWords| > 0 && chunkWords[|chunkWords| - 1] == ""
    ensures PartialMatches(queryWords, chunkWords) >= |queryWords|
    decreases |queryWords|
  {
    if queryWords != [] {
      EmptyWordMatchesAll(queryWords[..|queryWords| - 1], chunkWords);
      assert StartsWith(queryWords[|queryWords| - 1], "");
    }
  }

  /**
   * A chunk's text ends with the space after its last line, so its word list ends with
   * the empty word and every query word counts as a partial match.
   */
  lemma ChunkHasPartials(chunk: Chunk, cleanQuery: string, queryWords: seq<string>)
    requires |chunk.text| > 0 && chunk.text[|chunk.text| - 1] == ' '
    ensures Scored(chunk, cleanQuery, queryWords).partialMatches >= |queryWords|
  {
    var text := ToLower(chunk.text);
    assert text[|text| - 1] == ' ';
    SplitEndsEmpty(text, IsSpace);
    EmptyWordMatchesAll(queryWords, Split(text, IsSpace));
  }

  /** Scores are never negative. */
  lemma ScoreNonNegative(chunk: Chunk, cleanQuery: string, queryWords: seq<string>)
    ensures Scored(chunk, cleanQuery, queryWords).score >= 0.0
  {
    var text := ToLower(chunk.text);
    var words := Split(text, IsSpace);
    QuotientNonNegative(RawScore(text, cleanQuery, queryWords, words), |words| as real * 0.1);
  }

  lemma QuotientNonNegative(x: real, d: real)
    requires x >= 0.0 && d > 0.0
    ensures x / d >= 0.0
  {
    assert x / d * d == x;
  }

  // ---------------------------------------------------------------- ranking and answer

  /** The filter of `findRelevantContent`: a score above 0.1 or an exact match. */
  predicate IsRelevant(c: ScoredChunk) {
    c.score > 0.1 || c.exactMatches > 0
  }

  /** The sort key: exact matches first, then the score, both highest first. */
  function MatchRank(c: ScoredChunk): Rank {
    Rank(c.exactMatches, c.score)
  }

  /** The relevant chunks, sorted by rank, at most three. */
  function TopChunks(scored: seq<ScoredChunk>): (r: seq<ScoredChunk>)
    ensures |r| <= 3
  {
    Take(SortByRank(Filter(scored, IsRelevant), MatchRank), 3)
  }

  /**
   * The chunks returned are relevant chunks of the input, sorted by rank, and there are
   * none exactly when no chunk is relevant.
   */
  lemma TopChunksRelevant(scored: seq<ScoredChunk>)
    ensures var r := TopChunks(scored);
            && (forall k :: 0 <= k < |r| ==> IsRelevant(r[k]) && r[k] in scored)
            && SortedBy(r, MatchRank)
            && (|r| == 0 <==> forall k :: 0 <= k < |scored| ==> !IsRelevant(scored[k]))
  {
    var kept := Filter(scored, IsRelevant);
    var sorted := SortByRank(kept, MatchRank);
    var r := TopChunks(scored);
    forall k | 0 <= k < |r| ensures IsRelevant(r[k]) && r[k] in scored {
      assert r[k] == sorted[k] && sorted[k] in multiset(sorted);
      assert r[k] in multiset(kept);
    }
    TakeSorted(sorted, MatchRank, 3);
    if |r| == 0 {
      assert |kept| == 0;
      forall k | 0 <= k < |scored| ensures !IsRelevant(scored[k]) {
        assert scored[k] in scored;
      }
    } else {
      assert r[0] in scored;
    }
  }

  /** No relevant chunk left out ranks above a chunk that was returned. */
  lemma TopChunksAreBest(scored: seq<ScoredChunk>, i: nat, x: ScoredChunk)
    requires i < |TopChunks(scored)|
    requires x in scored && IsRelevant(x) && x !in TopChunks(scored)
    ensures !Outranks(MatchRank(x), MatchRank(TopChunks(scored)[i]))
  {
    var kept := Filter(scored, IsRelevant);
    var sorted := SortByRank(kept, MatchRank);
    var r := TopChunks(scored);
    assert x in multiset(kept);
    assert x in multiset(sorted);
    assert r == sorted[..|r|];
    PrefixDominates(sorted, MatchRank, |r|, x, r[i]);
  }

  /** One returned chunk: `[timestamp] text`. */
  function Quote(c: ScoredChunk): (r: string)
    ensures |r| > 0 && r[0] == '['
  {
    "[" + c.chunk.timestamp + "] " + Trim(c.chunk.text)
  }

  /** Whether some returned chunk has a partial match. */
  predicate HasPartialMatches(top: seq<ScoredChunk>) {
    exists k :: 0 <= k < |top| && top[k].partialMatches > 0
  }

  /** The quoted chunks separated by blank lines, plus the note when some match was partial. */
  /** Each returned chunk quoted with its timestamp. */
  function Quotes(top: seq<ScoredChunk>): (r: seq<string>)
    ensures |r| == |top|
    ensures forall i :: 0 <= i < |r| ==> |r[i]| > 0 && r[i][0] == '['
  {
    seq(|top|, i requires 0 <= i < |top| => Quote(top[i]))
  }

  function Answer(scored: seq<ScoredChunk>): string {
    var top := TopChunks(scored);
    if top == [] then NoRelevantContent
    else
      var formatted := Join(Quotes(top), "\n\n");
      if HasPartialMatches(top) then formatted + PartialNote else formatted
  }

  /** A join of parts the first of which starts with `c` starts with `c`. */
  lemma JoinHead(parts: seq<string>, sep: string, c: char)
    requires |parts| > 0 && |parts[0]| > 0 && parts[0][0] == c
    ensures |Join(parts, sep)| > 0 && Join(parts, sep)[0] == c
  {
  }

  /**
   * The fixed answer for no relevant chunk is given when no chunk is relevant; otherwise
   * the answer starts with the first quoted chunk's `[`.
   */
  lemma AnswerNothingFound(scored: seq<ScoredChunk>)
    ensures (forall k :: 0 <= k < |scored| ==> !IsRelevant(scored[k])) ==> Answer(scored) == NoRelevantContent
    ensures (exists k :: 0 <= k < |scored| && IsRelevant(scored[k])) ==> |Answer(scored)| > 0 && Answer(scored)[0] == '['
  {
    TopChunksRelevant(scored);
    if TopChunks(scored) != [] {
      AnswerOpensQuote(scored);
    }
  }

  /** When some chunk is returned, the answer opens with the first quote's `[`. */
  lemma AnswerOpensQuote(scored: seq<ScoredChunk>)
    requires TopChunks(scored) != []
    ensures |Answer(scored)| > 0 && Answer(scored)[0] == '['
  {
    var top := TopChunks(scored);
    var quotes := Quotes(top);
    JoinHead(quotes, "\n\n", '[');
    var formatted := Join(quotes, "\n\n");
    assert (formatted + PartialNote)[0] == '[';
  }

  /** The scored chunks of a transcript. */
  function ScoredChunks(items: seq<Item>, cleanQuery: string, queryWords: seq<string>): (r: seq<ScoredChunk>)
    requires ValidOffsets(items)
    ensures |r| == |Chunks(items)|
  {
    var chunks := Chunks(items);
    seq(|chunks|, k requires 0 <= k < |chunks| => Scored(chunks[k], cleanQuery, queryWords))
  }

  lemma ScoredAll(items: seq<Item>, chunks: seq<Chunk>, scored: seq<ScoredChunk>, cleanQuery: string, queryWords: seq<string>)
    requires ValidOffsets(items) && chunks == Chunks(items) && |scored| == |chunks|
    requires forall i :: 0 <= i < |chunks| ==> scored[i] == Scored(chunks[i], cleanQuery, queryWords)
    ensures scored == ScoredChunks(items, cleanQuery, queryWords)
  {
  }

  /** Scoring one more chunk keeps the scores those of the chunks so far. */
  lemma ScoredSnoc(chunks: seq<Chunk>, k: nat, scored: seq<ScoredChunk>, s: ScoredChunk, cleanQuery: string, queryWords: seq<string>)
    requires k < |chunks| && |scored| == k && s == Scored(chunks[k], cleanQuery, queryWords)
    requires forall i :: 0 <= i < k ==> scored[i] == Scored(chunks[i], cleanQuery, queryWords)
    ensures forall i :: 0 <= i < k + 1 ==> (scored + [s])[i] == Scored(chunks[i], cleanQuery, queryWords)
  {
    forall i | 0 <= i < k + 1 ensures (scored + [s])[i] == Scored(chunks[i], cleanQuery, queryWords) {
      if i < k {
        assert (scored + [s])[i] == scored[i];
      }
    }
  }

  /** `findRelevantContent(transcript, query)`. */
  function RelevantAnswer(items: seq<Item>, query: string): string
    requires ValidOffsets(items)
  {
    var queryWords := QueryWords(query);
    if queryWords == [] then MoreSpecificQuery
    else Answer(ScoredChunks(items, CleanQuery(query), queryWords))
  }

  /**
   * `findRelevantContent`: the query's words, the chunks, one score per chunk, then the
   * best three relevant chunks quoted.
   */
  method FindRelevantContent(items: seq<Item>, query: string) returns (answer: string)
    requires ValidOffsets(items)
    ensures answer == RelevantAnswer(items, query)
    ensures (forall w :: w in Split(CleanQuery(query), IsSpace) ==> !IsQueryWord(w)) ==> answer == MoreSpecificQuery
    ensures (exists w :: w in Split(CleanQuery(query), IsSpace) && IsQueryWord(w)) ==>
              answer == Answer(ScoredChunks(items, CleanQuery(query), QueryWords(query)))
  {
    var cleanQuery := Trim(ToLower(query));
    var queryWords := Filter(Split(cleanQuery, IsSpace), IsQueryWord);
    if |queryWords| == 0 {
      return MoreSpecificQuery;
    }
    var chunks := BuildChunks(items);
    var scored: seq<ScoredChunk> := [];
    for k := 0 to |chunks|
      invariant |scored| == k
      invariant forall i :: 0 <= i < k ==> scored[i] == Scored(chunks[i], cleanQuery, queryWords)
    {
      var s := ScoreChunk(chunks[k], cleanQuery, queryWords);
      ScoredSnoc(chunks, k, scored, s, cleanQuery, queryWords);
      scored := scored + [s];
    }
    ScoredAll(items, chunks, scored, cleanQuery, queryWords);
    answer := Answer(scored);
  }

  /** When every chunk has a partial match, an answer quoting chunks carries the note. */
  lemma NoteWhenAllPartial(scored: seq<ScoredChunk>)
    requires forall k :: 0 <= k < |scored| ==> scored[k].partialMatches > 0
    ensures (exists k :: 0 <= k < |scored| && IsRelevant(scored[k])) ==> EndsWith(Answer(scored), PartialNote)
  {
    TopChunksRelevant(scored);
    var top := TopChunks(scored);
    if top != [] {
      assert top[0] in scored;
      assert HasPartialMatches(top);
    }
  }

  /** Every chunk of a transcript ends with a space. */
  lemma ChunkEndsWithSpace(items: seq<Item>, k: nat)
    requires ValidOffsets(items) && k < ChunkCount(|items|)
    ensures var text := Chunks(items)[k].text; |text| > 0 && text[|text| - 1] == ' '
  {
    ChunkSizes(items, k);
  }

  /**
   * Whenever chunks are returned the partial-match note is appended: every chunk's
   * word list ends with the empty word, which every query word contains.
   */
  lemma NoteWheneverAnswered(items: seq<Item>, query: string)
    requires ValidOffsets(items)
    ensures var queryWords := QueryWords(query);
            var scored := ScoredChunks(items, CleanQuery(query), queryWords);
            queryWords != [] && (exists k :: 0 <= k < |scored| && IsRelevant(scored[k])) ==>
              EndsWith(RelevantAnswer(items, query), PartialNote)
  {
    var queryWords := QueryWords(query);
    if queryWords != [] {
      var scored := ScoredChunks(items, CleanQuery(query), queryWords);
      ScoredHavePartials(items, CleanQuery(query), queryWords);
      NoteWhenAllPartial(scored);
    }
  }

  /** Every scored chunk of a transcript has at least one partial match per query word. */
  lemma ScoredHavePartials(items: seq<Item>, cleanQuery: string, queryWords: seq<string>)
    requires ValidOffsets(items)
    ensures var scored := ScoredChunks(items, cleanQuery, queryWords);
            forall k :: 0 <= k < |scored| ==> scored[k].partialMatches >= |queryWords|
  {
    var scored := ScoredChunks(items, cleanQuery, queryWords);
    var chunks := Chunks(items);
    forall k | 0 <= k < |scored| ensures scored[k].partialMatches >= |queryWords| {
      ChunkEndsWithSpace(items, k);
      ChunkHasPartials(chunks[k], cleanQuery, queryWords);
    }
  }
}
