# IntelliTools core, modelled in Dafny

IntelliTools is a Next.js application that bundles small text assistants behind API
routes. It also keeps a user-account store behind a JWT-cookie login. This project
models the server-side logic of those routes:

- **YouTube assistant** (`youtube.dfy`, `transcript.dfy`, `transcript_search.dfy`,
  `youtube_route.dfy`):
  - `formatTime`, `extractVideoId` and the POST error classification;
  - `processTranscript`: the sentence filter, the five-sentence summary and the bullet points;
  - `findRelevantContent`: chunks of ten caption lines, scored, ranked and quoted;
  - the POST/PUT handlers over the video cache.
- **Text summariser** (`text.dfy`):
  - `cleanText`, `splitIntoSentences`, word count and reading time;
  - the frequency table behind `getMainTopics`;
  - the extractive summary: how many sentences, which ones, in what order, and the conclusion rule;
  - the POST validation and the topics line.
- **Word-document assistant** (`word.dfy`):
  - `calculateSimilarity`;
  - the PUT answer selection (threshold 0.2, best two);
  - `getKeyPhrases` (maximal noun runs of length at least 2, de-duplicated, first five);
  - the module-level `documentContent` that each upload overwrites.
- **Route guard** (`middleware.dfy`): the decision the middleware takes for a path, a token
  cookie, the token's validity and the `redirect` parameter.
- **Accounts** (`accounts.dfy`): signup, login, profile form update, password change,
  and profile GET/PUT over a map of user records, with the store as a class.

Shared pieces:

- `strings.dfy` holds the JavaScript string operations used: trim, split on runs, `includes`, ASCII lower case, `join` and decimal digits.
- `lists.dfy` holds filter, a stable sort by a descending rank, slicing and de-duplication.
- `wrappers.dfy` holds `Option`.

Library code the routes call is a parameter of the model:

- from `natural`: the tokenizer, the sentence splitter, the part-of-speech tagger, sentiment and TF-IDF scores;
- the URL parser;
- JWT verification;
- bcrypt's hash and compare;
- the MongoDB model.

Module-level and database state is a class with fields:

- `Assistant` in `word.dfy`;
- `Route` in `youtube_route.dfy`;
- `UserStore` in `accounts.dfy`.

Each class method is proved equal to a pure outcome function. The properties are proved about those functions.

## Model

| member | source | states |
|---|---|---|
| YouTube.Pad2Decimal | src/app/api/youtube/route.js:371-373 | `padStart(2, '0')` of a number below 100 is two digits that read back as the number |
| YouTube.ClockSplit | src/app/api/youtube/route.js:365-374 | the clock has two fields iff under an hour, three otherwise; later fields are two digits below 60; the fields denote the whole seconds |
| YouTube.FormatTimeClock | src/app/api/youtube/route.js:365-374 | `m:ss` below 3600 s, `h:mm:ss` from 3600 s on, minute and second fields in 0..59, and reading the clock back gives `floor(seconds)` |
| YouTube.ReadClock | src/app/api/youtube/route.js:370-373 | a clock whose fields denote t seconds reads back as t |
| YouTube.SearchParam | src/app/api/youtube/route.js:380-386 | `searchParams.get`: absent iff no pair has the name, otherwise the value of the first pair with it |
| YouTube.ExtractVideoId | src/app/api/youtube/route.js:377-393 | unparsable URL gives null; host `youtu.be` gives the path without its first character; a host containing `youtube.com` gives the `v` parameter; any other host null |
| YouTube.ExtractVideoIdRoundTrip | src/app/api/youtube/route.js:377-393 | an id put in a `youtu.be/<id>` URL or a `youtube.com/watch?v=<id>` URL comes back out |
| YouTube.ClassifyError | src/app/api/youtube/route.js:68-87 | status 400/404/500/429/503 and its fixed message exactly when the first matching fragment, in the order captions, not found, API key, quota, network, is that one; 500 with the generic server message when none matches |
| Transcript.TrimAll | src/app/api/youtube/route.js:205 | each piece trimmed, one for one |
| Transcript.SentencesClean | src/app/api/youtube/route.js:197-206 | every kept sentence is trimmed, holds no `.!?`, is longer than 20 characters and is not all digits |
| Transcript.SummarySplitsBack | src/app/api/youtube/route.js:209-211 | splitting the summary at `.!?` and trimming gives back the first five sentences (then the empty tail), so the summary is those sentences joined by `'. '` plus `'.'` |
| Transcript.JoinSplitsBack | src/app/api/youtube/route.js:209-211 | clean sentences joined by `'. '` with a final `'.'` split back into exactly those sentences |
| Transcript.BulletPointsShape | src/app/api/youtube/route.js:214-225 | the bullet points are the first eight (or fewer) sentences with 8 to 30 words and no call-to-action phrase, in order, each followed by `'.'` |
| TranscriptSearch.SpacedTextConcat | src/app/api/youtube/route.js:255 | the appended caption text of two runs of lines is the concatenation of theirs |
| TranscriptSearch.BuildChunks | src/app/api/youtube/route.js:249-272 | the chunking loop yields exactly the chunk list `Chunks(items)` |
| TranscriptSearch.AddLine | src/app/api/youtube/route.js:254-268 | one iteration of the `forEach` keeps the loop invariant relating the open chunk and closed chunks to the lines seen |
| TranscriptSearch.LastLine | src/app/api/youtube/route.js:270-272 | pushing the unfinished chunk when it has text completes the chunk list |
| TranscriptSearch.ChunkSizes | src/app/api/youtube/route.js:252-267 | n lines give ceil(n/10) chunks; every chunk but the last holds ten lines, the last one to ten |
| TranscriptSearch.OnlyFirstStamped | src/app/api/youtube/route.js:258-261 | a chunk has a non-empty timestamp iff it is the first, whose timestamp is the first line's `formatTime` |
| TranscriptSearch.ChunksCoverText | src/app/api/youtube/route.js:254-272 | the chunk texts concatenated are every line's text plus a space, in order |
| TranscriptSearch.ExactMatches | src/app/api/youtube/route.js:288-293 | at most one exact match per query word |
| TranscriptSearch.ScoreChunk | src/app/api/youtube/route.js:275-322 | the scoring loops compute the specified score, exact and partial match counts |
| TranscriptSearch.MatchPartially | src/app/api/youtube/route.js:296-301 | the inner loop adds one partial match and 0.5 to the score per chunk word that contains or is contained in the query word |
| TranscriptSearch.ExactWithinPartial | src/app/api/youtube/route.js:288-301 | every exact match is also counted as a partial match |
| TranscriptSearch.EmptyWordMatchesAll | src/app/api/youtube/route.js:277-297 | when the chunk's words include `''`, every query word partially matches |
| TranscriptSearch.ChunkHasPartials | src/app/api/youtube/route.js:255-300 | since chunk text ends in a space, each chunk has at least one partial match per query word |
| TranscriptSearch.ScoreNonNegative | src/app/api/youtube/route.js:278-314 | a normalised score is never negative |
| TranscriptSearch.TopChunks | src/app/api/youtube/route.js:335 | at most three chunks are kept |
| TranscriptSearch.TopChunksRelevant | src/app/api/youtube/route.js:325-335 | the kept chunks are relevant chunks of the input (score > 0.1 or an exact match), sorted by exact matches then score, and none are kept iff no chunk is relevant |
| TranscriptSearch.TopChunksAreBest | src/app/api/youtube/route.js:325-335 | no relevant chunk left out outranks a kept one |
| TranscriptSearch.Quotes | src/app/api/youtube/route.js:342-345 | one `[timestamp] text` quote per kept chunk |
| TranscriptSearch.AnswerNothingFound | src/app/api/youtube/route.js:337-345 | with no relevant chunk the fixed "No relevant content found" answer; otherwise the answer opens with a quote |
| TranscriptSearch.NoteWhenAllPartial | src/app/api/youtube/route.js:347-351 | when every chunk has partial matches, any answer quoting chunks ends with the partial-match note |
| TranscriptSearch.ChunkEndsWithSpace | src/app/api/youtube/route.js:255 | every chunk's text is non-empty and ends with a space |
| TranscriptSearch.NoteWheneverAnswered | src/app/api/youtube/route.js:241-351 | whenever the query has a word and some chunk is relevant, the answer ends with the partial-match note |
| TranscriptSearch.FindRelevantContent | src/app/api/youtube/route.js:238-353 | a query with no word longer than two characters gets the fixed "more specific query" answer; otherwise the answer quotes the best relevant chunks of the scored chunk list |
| YouTubeRoute.PostOutcome | src/app/api/youtube/route.js:16-89 | an unreadable body is classified like any thrown error; then URL required, invalid URL, a cache hit answering the cached entry unchanged, a fetch failure, a thrown fetch error classified; otherwise the full video data (title, description, transcript, summary, bullet points, message) cached under its own id. Cached entries are never replaced and failures leave the cache unchanged |
| YouTubeRoute.Route.Post | src/app/api/youtube/route.js:16-89 | the handler's response and new cache are those of `PostOutcome`, including for an unreadable body |
| YouTubeRoute.Route.Put | src/app/api/youtube/route.js:91-114 | an unreadable body is a 500 with the query-error message; then missing id 400, missing query 400, unprocessed video 400; otherwise the answer from the cached transcript |
| YouTubeRoute.ProcessThenQuery | src/app/api/youtube/route.js:56-109 | after a successful POST, a PUT for the same video is answered from its transcript |
| TextSummary.StripDisallowed | src/app/api/text/route.js:21 | only word characters, whitespace and `.,!?` remain, and every allowed non-space character survives |
| TextSummary.NewlineStepIsIdle | src/app/api/text/route.js:19-20 | after whitespace collapsing the newline-to-`'. '` step never changes the text |
| TextSummary.CleanTextChars | src/app/api/text/route.js:17-23 | the cleaned text is trimmed and holds only allowed characters with `' '` as its only whitespace; its non-space characters are exactly the input's allowed non-space characters, in order |
| TextSummary.CleanTextKeepsDoubleSpace | src/app/api/text/route.js:19-21 | stripping after collapsing can leave two spaces in a row: `"a @ b"` cleans to `"a  b"` |
| TextSummary.SplitIntoSentences | src/app/api/text/route.js:26-28 | every fragment is non-terminators followed by terminators |
| TextSummary.SentencesCoverText | src/app/api/text/route.js:26-28 | the fragments, in order, are the text between a leading terminator run and a trailing piece without terminators |
| TextSummary.NoSentences | src/app/api/text/route.js:27 | no fragment iff no non-terminator is followed by a terminator |
| TextSummary.WordCount | src/app/api/text/route.js:31-33 | the word count is at least 1 |
| TextSummary.BlankCountsOne | src/app/api/text/route.js:31-33 | a blank text counts one word |
| TextSummary.ReadingTime | src/app/api/text/route.js:36-39 | the reading time is ceil(words / 200) |
| TextSummary.Occurrences | src/app/api/text/route.js:54-57 | a word's tally is positive iff it occurs |
| TextSummary.FirstSeen | src/app/api/text/route.js:54-60 | the tallied words, each longer than three characters, once each, every such word present |
| TextSummary.CountWord | src/app/api/text/route.js:55-57 | one `forEach` step: a short word changes nothing, a known word's count goes up by one, a new word enters with 1 |
| TextSummary.MainTopics | src/app/api/text/route.js:50-64 | the frequency loop and sort give `Topics(words)` |
| TextSummary.TopicsAreMostFrequent | src/app/api/text/route.js:50-64 | at most five topics, each a word longer than three characters, none twice, in non-increasing frequency |
| TextSummary.TopicsLeaveOutLessFrequent | src/app/api/text/route.js:60-63 | a long-enough word left out is no more frequent than any topic |
| TextSummary.SummaryLength | src/app/api/text/route.js:91 | `numSentences` is max(3, ceil(3n/10)) |
| TextSummary.SelectionCount | src/app/api/text/route.js:91-96 | min(n, numSentences) sentences are selected, each a scored sentence of the text |
| TextSummary.SelectionInDocumentOrder | src/app/api/text/route.js:95 | selected sentences are in document order |
| TextSummary.SelectionIsBest | src/app/api/text/route.js:92-94 | a sentence left out scores no higher than any selected one (scores are total reals; see Left out) |
| TextSummary.ExtractiveNoSentences | src/app/api/text/route.js:72-79 | with no sentence the fixed "too short" summary with no topics and no conclusion; otherwise not |
| TextSummary.ExtractiveSummaryContent | src/app/api/text/route.js:67-107 | the summary is the trimmed sentences at increasing positions, min(n, numSentences) of them, joined by a space; the topics are those of the cleaned text |
| TextSummary.ConclusionRule | src/app/api/text/route.js:98-107 | the conclusion is the last sentence iff it contains a marker, otherwise `''` |
| TextSummary.ExtractiveConclusion | src/app/api/text/route.js:98-107 | the summary's conclusion follows that rule on the text's last sentence |
| TextSummary.TopicsLine | src/app/api/text/route.js:220-222 | no topics gives the fixed fallback line; otherwise the fixed prefix, the topics joined by `", "`, and `'.'` |
| TextSummary.PostValidation | src/app/api/text/route.js:200-267 | an unreadable body is a 400 "Failed to process request" with the parser's message as details; a 400 iff the text is missing, not a string or shorter than 100 characters, with the matching detail; otherwise the formatted extractive summary unless the abstractive one is asked for, whose error is a 500 with its message or the fallback |
| WordAssistant.Similarity | src/app/api/word/route.js:119-131 | no query token gives NaN (`None`); otherwise a ratio in [0, 1] |
| WordAssistant.CalculateSimilarity | src/app/api/word/route.js:119-131 | the counting loop computes the matched query tokens, with repetition, over the query's token count |
| WordAssistant.SimilarityExtremes | src/app/api/word/route.js:123-130 | all query tokens present gives 1, none present gives 0 |
| WordAssistant.Assess | src/app/api/word/route.js:88-97 | a sentence is a candidate iff it is non-blank and its similarity exceeds 0.2; the candidate is the trimmed sentence with its score |
| WordAssistant.CandidatesExactly | src/app/api/word/route.js:87-98 | every relevant sentence's candidate is collected, every candidate comes from a relevant sentence, and there are no more than sentences |
| WordAssistant.RelevantSentences | src/app/api/word/route.js:87-98 | the `forEach` pushes exactly those candidates in order |
| WordAssistant.TopAnswers | src/app/api/word/route.js:101-102 | min(2, candidates) answers, drawn from the candidates, highest score first, none left out scoring higher |
| WordAssistant.Answer | src/app/api/word/route.js:104-106 | no candidate gives the fixed fallback; otherwise the top answers joined by a space |
| WordAssistant.IsNounStartsWith | src/app/api/word/route.js:152 | a word counts as a noun iff its tag starts with `'N'` |
| WordAssistant.LeadingNouns | src/app/api/word/route.js:151-153 | the length of the noun run at the front |
| WordAssistant.PhrasesAreRuns | src/app/api/word/route.js:148-165 | every phrase is a maximal noun run of length at least 2, joined by spaces |
| WordAssistant.RunsArePhrases | src/app/api/word/route.js:148-165 | every maximal noun run of length at least 2, including one ending the input, is a phrase |
| WordAssistant.PhrasesAppend | src/app/api/word/route.js:148-165 | phrases of text split after a non-noun are the phrases of both parts in order |
| WordAssistant.LastRun | src/app/api/word/route.js:162-165 | closing the final run completes the phrase list |
| WordAssistant.KeyPhrasesFacts | src/app/api/word/route.js:168 | the first five distinct phrases in first-occurrence order: at most five, none twice, fewer than five only when all phrases are included, and a phrase left out first occurs after every kept one |
| WordAssistant.GetKeyPhrases | src/app/api/word/route.js:134-169 | the grouping loop with `currentPhrase` produces `KeyPhrases` of the tagged words |
| WordAssistant.Assistant.constructor | src/app/api/word/route.js:8-9 | no document and an empty TF-IDF corpus at start |
| WordAssistant.Assistant.Post | src/app/api/word/route.js:11-62 | a missing file gives 400 and an unreadable one 500, with nothing changed; otherwise the document replaces `documentContent`, joins the corpus, and the response holds the first three sentences, sentiment and key phrases |
| WordAssistant.Assistant.Put | src/app/api/word/route.js:64-116 | malformed body 500; no document 400, checked before a missing query 400; otherwise the answer from the current document |
| WordAssistant.UploadTwiceThenAsk | src/app/api/word/route.js:9-84 | after two uploads a query is answered from the second document |
| Middleware.Decide | src/middleware.js:4-44 | redirect to login with the path iff protected without token; protected with token proceeds unverified; auth path with valid token goes to a protected `redirect` or to the dashboard; invalid token proceeds deleting the cookie; other paths proceed |
| Middleware.ProtectedAuthDisjoint | src/middleware.js:4-13 | no path is both protected and an auth path |
| Middleware.SignedInRedirectsSettle | src/middleware.js:24-35 | where a signed-in user is sent is protected, so the next request, at the target as written, proceeds |
| Middleware.SignedOutReachesLogin | src/middleware.js:16-21 | the login page a signed-out user is sent to is served |
| Accounts.FindByEmail | src/app/api/auth/signup/route.js:38 | the oldest record with the email, or none when no record has it |
| Accounts.FindByEmailTaken | src/app/api/auth/login/route.js:17-24 | the lookup finds a record iff the email is taken |
| Accounts.FindByEmailUnique | src/app/api/auth/login/route.js:17 | with unique emails the lookup finds the one record with it |
| Accounts.SignupOutcome | src/app/api/auth/signup/route.js:7-92 | missing configuration 500, unreadable body 500, missing field 400 "fields required", taken email 400 "user exists", each changing nothing; success iff all pass, storing only the hashed password and answering id, name, email, role with a week-long token and cookie |
| Accounts.SignupNeverDuplicates | src/app/api/auth/signup/route.js:38-54 | signup never stores a second record with an email in use and keeps unique emails unique |
| Accounts.DefaultRedirect | src/app/api/auth/login/route.js:68 | `/dashboard` iff the role is `admin` |
| Accounts.LoginOutcome | src/app/api/auth/login/route.js:11-78 | unknown email and wrong password give the same 401; success iff the email is taken and the password matches; the account view has no password; the token holds id, email and role for a day, as does the cookie |
| Accounts.SignupThenLogin | src/app/api/auth/signup/route.js:47-54 | a user who signed up logs in with the same credentials as the new record |
| Accounts.AvatarLinkOf | src/app/api/profile/update/route.js:92-95 | the avatar is exposed as its content type and an `/api/profile/avatar/` URL whose suffix is the decimal digits of the user's id |
| Accounts.FieldError | src/app/api/profile/update/route.js:7-63 | which error the form gives: name under 2 characters, else bio over 200, else avatar not a file, over 2 MiB or not `image/`, each exactly when the earlier rules pass; none iff all rules hold |
| Accounts.ApplyForm | src/app/api/profile/update/route.js:36-68 | only name, bio and avatar change, each only when given |
| Accounts.FormOutcome | src/app/api/profile/update/route.js:9-112 | token 401, bad token 401, other verification error 500, unreadable form 500, unknown user 404, a field rule 400 with that rule's message, each changing nothing; success writes the applied form once and answers the saved record's id, name, email, bio, role and avatar link, without the password |
| Accounts.PasswordOutcome | src/app/api/profile/change-password/route.js:8-75 | token and verification guards, unreadable body 500, then both passwords present and the new one at least 6 long before the lookup, then unknown user 404, then wrong current password 400; success iff all pass, replacing only the password hash with the new password's hash |
| Accounts.NewPasswordLogsIn | src/app/api/profile/change-password/route.js:57-62 | after a change the new password logs in and an old one that does not match the new hash is refused with the uniform 401 |
| Accounts.VerifyToken | src/lib/auth.js:3-13 | the decoded user id when verification succeeds, null whenever it fails |
| Accounts.ProfileOf | src/app/api/profile/route.js:21 | the record without its password |
| Accounts.ProfileGet | src/app/api/profile/route.js:8-35 | missing token 401, invalid token 401, unknown user 404; otherwise the record without its password |
| Accounts.UpdateFields | src/app/api/profile/route.js:60-80 | name, email and avatar change only when given, the password hash only when both passwords are given; nothing else changes |
| Accounts.ProfilePut | src/app/api/profile/route.js:38-101 | token guards, unreadable body 500, unknown user 404, wrong current password (when both passwords are given) 400, each changing nothing; success applies `UpdateFields` to that user only and answers without the password |
| Accounts.ProfilePutCanDuplicateEmail | src/app/api/profile/route.js:62 | the profile PUT can give two records the same email |
| Accounts.UserStore.Signup | src/app/api/auth/signup/route.js:7-92 | the handler's response and new collection are those of `SignupOutcome`; the next id moves on only on success |
| Accounts.UserStore.UpdateProfile | src/app/api/profile/update/route.js:9-112 | assigning fields one by one and saving once gives `FormOutcome`, so a rejected field leaves the stored record as it was |
| Accounts.UserStore.ChangePassword | src/app/api/profile/change-password/route.js:8-75 | the handler's response and new collection are those of `PasswordOutcome` |
| Accounts.UserStore.PutProfile | src/app/api/profile/route.js:38-101 | the handler's response and new collection are those of `ProfilePut` |
| Lists.SortByRank | src/app/api/youtube/route.js:327-334 | the sort is a permutation of its input, sorted by descending rank |
| Lists.InsertSorted | src/app/api/youtube/route.js:327-334 | inserting into a list sorted by a descending rank keeps it sorted |
| Lists.FilterConcat | src/app/api/youtube/route.js:326 | filtering keeps order across a concatenation |
| Lists.Unique | src/app/api/word/route.js:168 | `[...new Set(xs)]` holds exactly the elements of `xs` |
| Lists.UniqueOrder | src/app/api/word/route.js:168 | `[...new Set(xs)]` holds each element once, in first-occurrence order |
| Strings.SplitEndsEmpty | src/app/api/youtube/route.js:277 | splitting a text that ends in whitespace gives a last piece `''` |

## Left out

- Third-party libraries are parameters:
  - `natural`'s word tokenizer, sentence tokenizer, Brill tagger, sentiment analyser and TF-IDF scores;
  - `mammoth`'s text extraction;
  - the URL parser;
  - `jsonwebtoken`/`jose` verification and signing;
  - `bcryptjs` hash and compare.

  Properties that need a concrete library behaviour state it as a precondition, such as `compare(p, hash(p))`.
- `fetchVideoData` is an input (`FetchResult`). Its network calls and caption-language fallback are not modelled.
- The `memory-cache` TTL is not modelled. A cached video stays cached, so expiry is not captured.
- Floating point is not modelled:
  - scores, offsets and similarity are exact reals;
  - the text route's "Reduction" percentage and the analysis block's formatting are not modelled;
  - `formatTime` is modelled for non-negative offsets only.
- NaN is modelled as `None` only in `calculateSimilarity`, where a query with no tokens gives NaN, and NaN is never above 0.2.
- TextSummary.SelectSentences and TextSummary.SelectionIsBest take the sentence score as a total real. In `getSentenceScore` a sentence with no token scores 0/0, which is NaN, and a sort comparator returning NaN leaves V8's order unspecified; the model does not capture that case, so `SelectionIsBest` holds only where every score is a number.
- Every JavaScript `sort` is modelled as a stable insertion sort by a descending rank. V8's sort is stable, so the order of equal keys agrees.
- TextSummary.MainTopics counts words in a fresh map. The source counts them in a plain object, so a word equal to an inherited `Object.prototype` key misbehaves there: `constructor` starts from the inherited function and its count becomes a string, and `__proto__` is never stored. The model counts these words like any other.
- TextSummary.MainTopics takes entries in first-seen order. JavaScript's `Object.entries` puts integer-like keys (such as `"2024"`) first in ascending numeric order; that ordering is not modelled.
- Case folding and whitespace are ASCII only: `toLowerCase` maps `A`–`Z`, and `\s` is space, tab, newline, carriage return, form feed and vertical tab. String lengths count characters, not UTF-16 code units.
- TextSummary.CleanTextChars does not claim that whitespace runs are collapsed, because the code as written does not guarantee it. The characters are stripped after collapsing, so `"a @ b"` becomes `"a  b"` (`TextSummary.CleanTextKeepsDoubleSpace`).
- The abstractive summary (the generative-AI call in the text route) is an input outcome: a produced summary or a thrown message.
- Accounts:
  - the MongoDB collection is a map keyed by a counter id, and `findOne({ email })` returns the oldest record;
  - the `User` schema (`src/models/User.js`) is not part of this model, so the default role and bio are a parameter;
  - connection and save failures are not modelled, nor is the 500 when an avatar's bytes cannot be read;
  - login fields are strings, so a missing field reaches the lookup as an email that no record has;
  - form fields other than text or a file, and the JSON `avatar` shape in the profile PUT, are taken as given.
- JSON body fields are strings or absent in every handler; other JSON values are not modelled. This drops, for instance:
  - a truthy non-string `query` in the YouTube PUT, where `query.toLowerCase()` throws inside `findRelevantContent` and its own catch answers 200 with "Error processing your query. Please try again with different keywords.";
  - the same `query` in the Word PUT, which gives the 500 query error once some sentence is non-blank;
  - an object `email` in signup such as `{"$gt": ""}`, which MongoDB takes as an operator that matches an existing record.
- Middleware.SignedInRedirectsSettle takes the `redirect` string as the next request's path. The source redirects to `new URL(redirectTo, request.url)`, and resolving dot segments is not modelled: `/dashboard/../login` passes the prefix test but resolves to `/login`, which is redirected again.
- Accounts.PasswordOutcome takes the stored password hash as readable by the route's plain `findById`. If the `User` schema hides the password field (`select: false`), `compare` would receive no hash and throw, which the route answers with 500; the schema is not part of this model.
- Accounts.ProfilePutCanDuplicateEmail holds only when the collection has no unique index on `email`. With such an index the save fails and the route answers 500, which is not modelled.
- WordAssistant.Assistant.Post treats `mammoth` and `natural` as total. If one threw after `documentContent` had been replaced, the source would answer 500 with the document already changed; the model does not capture that.
- Token signing is not modelled: the payload is recorded, not the signed string. The secret's fallback value is not modelled either.
- The cookie attributes other than `maxAge` are not modelled (`httpOnly`, `secure`, `sameSite`, `path`), nor are response headers and the CORS `OPTIONS` handlers.
- Middleware.Decide takes the path as given. The `matcher` configuration that keeps the middleware off `api`, `_next` and static paths is not modelled.
- Not part of this model:
  - the chat and PDF routes: the PDF route is entirely commented out, and the chat route streams an external API;
  - `auth/me`, `auth/logout` and the avatar route;
  - every React page and component.
- Transcript.RemoveBracketed states only that it never lengthens the text; the `[...]` removal is written out in its body rather than specified.
