# A verified model of the text-generation engine and its web application

The repository is a small language-model playground. A Python back end
(`backend/api_server.py`, `generate.py`, `tokenizer.py`,
`load_encoded_data.py`) tokenises text, cuts encoded sequences into training
pairs and generates text with a recurrent model. It serves the result as one
reply or as a server-sent-event stream. A Next.js application around it relays
those streams, lets users generate text, images and video through several
providers, manages a hierarchy of "memories", runs an AI-manager that turns
prompts into tasks and questions, and sells credits.

This project models the logic of that system in Dafny, one module per source
file, and proves what the code promises:

- **The engine.** `ApiServer` models request normalisation, the decoding loop
  with its threaded hidden state, top-k masking, stopping at end-of-sequence
  or after `max_tokens` steps, token counts, and the three-word re-chunker
  with its single terminal event. `Generate` models the fixed eight-id
  context window. `Tokenizer` is a class whose vocabulary is built by a
  counting loop; encode and decode round-trip on in-vocabulary words.
  `LoadEncodedData` models the line parser and the sliding-window pair
  builder. The model's forward pass, the softmax/multinomial draw and the
  sentencepiece codec are function parameters with small contracts.
- **Event streams.** `EventStream` states the `data: …` framing of section
  9.2 of the WHATWG HTML Living Standard. The producers (`GenerateStream`,
  `ApiServer`) and the consumers (`HomePage`, `ModelConsole`, `TextMode`) are
  proved to agree: a consumer that carries the last partial piece over
  recovers every event, however the network cuts the reads.
- **Text helpers.** The HTML-escaping markdown formatter, the selection
  splice, the progressive response split, prompt-section assembly, and chat
  history cleaning.
- **Data routes.** The CSV writer (a variant of section 2 of RFC 4180) and the
  row filters, the memories and documents routes, the AI-manager classifiers,
  planner and update rules, and the admin preferences whitelist.
- **Video and image providers.** Parameter normalisation, endpoint choice, the
  bounded polling loops with their throttle counter, refunds, and the
  in-place mask binarisation.
- **Client state.** React components whose state the handlers update become
  classes with `modifies` clauses: the memory review, tag and memory editors,
  the credit counters and the signup state machine.

Shared modules: `Wrappers` (Option, Result), `Strings` (split, join, trim and
their lemmas), `Numbers` (decimal numerals, and `parseInt` with radix 10 and with no
radix, which reads `0x` numerals as hexadecimal) and `Json` (JSON values;
the text codecs are parameters whose contract is that parsing inverts
serialising). Network, database and clock calls are parameters too; each
module's header says which. Texts are sequences of characters: where the
JavaScript code counts or cuts UTF-16 code units, the model counts
characters, which differ only for characters outside the Basic
Multilingual Plane.

The model also pins down some behaviour of the code that is easy to miss:

- `DocumentsRoute.BlankPdfPasses`: a PDF with no text passes the
  extraction-failure test.
- `Intents.ClassifiersDisagree`: the intents route and the planner of generate-tasks
  classify a request to make a video of an image differently.
- `CreditsDialog.CreditsGuardUnreachable`: the dialog's credits-minimum alert
  can never fire.
- `ModelConsole.DropsGroupSpaces`: the console drops the space between the
  three-word groups the engine streams, provided the `/api/generate-stream`
  route in between passes the engine's blocks through unchanged (that route
  is not part of this model).
- `VideoMode.AlephChargedNotRefunded`: the video page charges for gen4_aleph,
  which the Runway route refuses before its refund path.
- `MemoryEditors.CancelAfterDelete`: in the memory review, cancelling an edit
  after a delete restores the wrong memories.
- In the memories route, the parent and sibling lookups are not limited to
  the signed-in user's rows, and a NaN salience passes validation
  (`MemoriesRoute.Invalid`).
- `Generations.ListQuery`: the generations listing query is not limited to one user.

## Model

| member | source | states |
|---|---|---|
| ApiServer.Normalize | backend/api_server.py:66-83 | a missing field takes the model default (64, 0.9, 50); a given falsy value takes the `or` default (40, 0.8, 50); any other value is kept; none of the three ends up zero |
| ApiServer.Divisor | backend/api_server.py:111 | the temperature divisor `max(t, 1e-6)` is positive and at least the temperature |
| ApiServer.Scale | backend/api_server.py:111 | every logit is divided by the same positive divisor; the length is kept |
| ApiServer.Insert | backend/api_server.py:115 | inserting one index into a ranking adds exactly that index |
| ApiServer.HeadDominates | backend/api_server.py:115 | the first index of a descending ranking has the largest value |
| ApiServer.Ranking | backend/api_server.py:115 | the ranking used by `torch.topk` holds each of the first n indices once, in descending value order |
| ApiServer.TopKIsTop | backend/api_server.py:113-117 | exactly k distinct positions are kept, and no dropped logit is larger than a kept one |
| ApiServer.MaskedSpec | backend/api_server.py:111-117 | with top_k > 0 exactly min(top_k, n) positions stay finite, each with its scaled value, and they dominate the masked ones; with top_k <= 0 nothing is masked; a non-empty vector keeps a finite position |
| ApiServer.SamplerSurvives | backend/api_server.py:119-120 | a sampler that draws only from finite probabilities picks a token that survived the mask |
| ApiServer.GenerateText | backend/api_server.py:72-141 | the HF backend answers with its own text, or with a failure reply carrying its exception's message (lines 140-141); the local backend answers with the report of the decoding of the encoded prompt, a failed step giving the failure reply with the step's error |
| ApiServer.LoopGrowth | backend/api_server.py:106-126 | a run only appends ids, makes at most one model call per iteration, and appends one id per successful call |
| ApiServer.LoopEos | backend/api_server.py:122-126 | no generated id but the last is the end-of-sequence id, and a run that stops early without an error stopped on it |
| ApiServer.DecodeShape | backend/api_server.py:101-128 | the generated ids extend the prompt ids by at most max_tokens ids (none for a negative count); an early stop ends on end-of-sequence |
| ApiServer.ReportCounts | backend/api_server.py:128-138 | on success the reply counts the prompt ids, and the generated count is total minus input, between 0 and max(max_tokens, 0) |
| ApiServer.LoopFirstCall | backend/api_server.py:105-109 | the first model call gets the current context and hidden state |
| ApiServer.LoopThreading | backend/api_server.py:108-123 | every later call gets the single id sampled last and the hidden state the previous call returned |
| ApiServer.DecodeThreading | backend/api_server.py:101-123 | the first call gets the whole prompt and no hidden state, and every later call the last sampled id and the returned state |
| ApiServer.LoopSamplesKept | backend/api_server.py:113-122 | when every pick is accepted, every sampled id of a run is accepted for the logits of its own call |
| ApiServer.DecodeSamplesKept | backend/api_server.py:108-122 | every sampled id is a position that survived the top-k mask of its own call |
| ApiServer.Deltas | backend/api_server.py:182-190 | one delta per group of three words, rounding up |
| ApiServer.Blocks | backend/api_server.py:188 | one `data:` block per delta, in order |
| ApiServer.Chunker | backend/api_server.py:182-191 | the loop emits the delta block of every group of three words and then the done block |
| ApiServer.SseHf | backend/api_server.py:153-163 | one delta block per streamed piece, then the done block |
| ApiServer.SseLocalTerminal | backend/api_server.py:165-193 | the corrected stream never breaks off: a failed generation gives exactly one error event carrying the reply's error and no done block; otherwise ceil(words/3) data blocks and then the done block |
| ApiServer.LocalFailureAborts | backend/api_server.py:176-181 | as written, a failed local generation delivers no block and the body breaks off (the error generator reads the deleted `e`), where the intended stream sends one error event; successes agree |
| ApiServer.DeltasJoin | backend/api_server.py:183-189 | for words with no whitespace at their ends, the deltas joined by spaces give the words joined by spaces |
| ApiServer.ChunkerRoundTrip | backend/api_server.py:182-191 | for single-spaced text, joining the streamed deltas with spaces rebuilds the generated text |
| ApiServer.VocabularySample | backend/api_server.py:201-210 | the sample holds the first min(50, vocab_size) ids with their pieces, in id order |
| Generate.LastNSuffix | generate.py:35 | `tokens[-8:]` is the suffix of length min(8, n) |
| Generate.GenerateText | generate.py:33-48 | the script returns the decoding of the generated ids, or fails when a model step fails |
| Generate.ExtendGrowth | generate.py:41-46 | the loop only appends, one id per model call, and without a failure makes exactly `length` calls |
| Generate.GenerationShape | generate.py:33-48 | the result starts with the last min(8, n) seed ids and, without a failure, holds exactly `length` more ids |
| Generate.ExtendWindows | generate.py:42-46 | each call of the loop gets the last 8 ids of the result so far |
| Generate.GenerationWindows | generate.py:34-46 | every model call of a generation gets the last (at most 8) ids of the result so far |
| Generate.ExtendThreading | generate.py:40-42 | each call of the loop gets the hidden state the previous call returned |
| Generate.GenerationThreading | generate.py:40-42 | the first call gets no hidden state, every later call the state the previous call returned |
| LoadEncodedData.ParseAll | load_encoded_data.py:25 | a line's tokens read as one integer each |
| LoadEncodedData.Load | load_encoded_data.py:9-28 | one sequence per line; the whole load fails exactly when some line holds a token that is not an integer |
| LoadEncodedData.LoadEncoded | load_encoded_data.py:19-28 | the reading loop computes `Load` of the file's lines |
| LoadEncodedData.ParseTokens | load_encoded_data.py:25 | the comprehension computes `ParseAll` of the line's tokens |
| LoadEncodedData.ParseAllFails | load_encoded_data.py:25 | one token that is not an integer makes the line raise |
| LoadEncodedData.ReadWritten | load_encoded_data.py:25 | a line of space-separated ids, with or without its line break, reads back as those ids |
| LoadEncodedData.BlankLine | load_encoded_data.py:25 | a blank line reads as the empty sequence |
| LoadEncodedData.LoadWritten | load_encoded_data.py:9-28 | a file written one line of ids per sequence loads back as those sequences |
| LoadEncodedData.LoadSnoc | load_encoded_data.py:24-26 | loading one more line appends that line's sequence |
| LoadEncodedData.Windows | load_encoded_data.py:48-50 | one input window per position `0 .. len - c - 1` |
| LoadEncodedData.Nexts | load_encoded_data.py:48-52 | one target per position `0 .. len - c - 1` |
| LoadEncodedData.CreateTrainingPairs | load_encoded_data.py:30-57 | the nested loops compute the inputs and targets of every long enough sequence, in order |
| LoadEncodedData.AddPairs | load_encoded_data.py:48-55 | the inner loop appends the windows and the next tokens of one sequence |
| LoadEncodedData.PairsShape | load_encoded_data.py:41-57 | as many inputs as targets, one per pair, and every input is exactly c ids long |
| LoadEncodedData.PairAt | load_encoded_data.py:48-55 | the pair at its global position is the window `s[i:i+c]` with the target `s[i+c]` |
| LoadEncodedData.ShortSequence | load_encoded_data.py:45-46 | a sequence shorter than c + 1 adds no pair |
| Tokenizer.RemovePunctuation | tokenizer.py:50-52 | only word characters, whitespace and apostrophes are kept, nothing is added, and a text with nothing to remove is unchanged |
| Tokenizer.Collapse | tokenizer.py:55 | runs of whitespace become one space; only the empty text collapses to empty |
| Tokenizer.CollapseSpaced | tokenizer.py:55 | after collapsing, the only whitespace is single spaces, and no new character appears |
| Tokenizer.NormalForm | tokenizer.py:55 | the normalised text is single-spaced, has no whitespace at either end, and adds nothing but spaces |
| Tokenizer.Tokenizer.constructor | tokenizer.py:24-35 | a new tokenizer has the given flags and an empty vocabulary of size 0 |
| Tokenizer.Tokenizer.PreprocessText | tokenizer.py:37-57 | with lowercase on no upper-case letter is left; with punctuation removal on only kept characters are left; the result is single-spaced and trimmed |
| Tokenizer.Tokenizer.Tokenize | tokenizer.py:59-71 | every token is non-empty and holds no whitespace |
| Tokenizer.Tokenizer.TokensJoin | tokenizer.py:55-71 | the tokens joined by single spaces give back the preprocessed text |
| Tokenizer.Tokenizer.NoTokens | tokenizer.py:59-71 | an empty text, or one made only of removed punctuation, has no token |
| Tokenizer.Tokenizer.BuildVocab | tokenizer.py:73-97 | the stored vocabulary and its size are the frequent words of the counted tokens, numbered in `most_common` order |
| Tokenizer.Tokenizer.CountTokens | tokenizer.py:84-88 | the counting loop leaves a counter holding every token of every text with its number of occurrences, keys in first-seen order |
| Tokenizer.Tokenizer.Encode | tokenizer.py:99-111 | one id per token |
| Tokenizer.Tokenizer.DecodeEncode | tokenizer.py:99-126 | when every token is in the vocabulary, decoding the encoding gives the preprocessed text |
| Tokenizer.Tokenizer.UnknownIds | tokenizer.py:110-125 | a token outside the vocabulary encodes as 0, which is also the id of the most common word, and an id outside the vocabulary, negative ones included, decodes as `<UNK>` |
| Tokenizer.Tokenizer.GetStats | tokenizer.py:128-139 | the statistics report the vocabulary's size and the two flags |
| Tokenizer.EncodeTokens | tokenizer.py:110 | each token maps to its vocabulary id, or 0 |
| Tokenizer.DecodeIds | tokenizer.py:124-125 | each id maps to its word through the reversed vocabulary |
| Tokenizer.Get | tokenizer.py:110 | `dict.get(token, 0)`: the id stored for the word, or 0 when it is absent |
| Tokenizer.GetReverse | tokenizer.py:124 | in a vocabulary built by the tokenizer, reversing a word's id gives the word back |
| Tokenizer.ReverseMissing | tokenizer.py:125 | an id beyond the vocabulary decodes as `<UNK>` |
| Tokenizer.Update | tokenizer.py:88 | `Counter.update` adds one to the count of every token, and new tokens become keys in order |
| Tokenizer.FirstSeen | tokenizer.py:84-88 | the counter's keys: every token once, in first-seen order |
| Tokenizer.MostCommon | tokenizer.py:91 | `most_common()` lists every distinct word once, by non-increasing count |
| Tokenizer.PickRanked | tokenizer.py:91 | ranking the first-seen keys by count gives the `most_common` order |
| Tokenizer.BuildVocabCorrect | tokenizer.py:84-95 | ranking the loop's counter and numbering its frequent words gives the vocabulary specified from the token list |
| Tokenizer.FrequentPrefix | tokenizer.py:91-92 | since counts do not increase along `most_common`, the frequent words are a prefix, numbered from 0 |
| Tokenizer.RareSuffix | tokenizer.py:91-92 | after the first word below `min_freq`, no later word is kept |
| Tokenizer.FrequentValid | tokenizer.py:91-92 | the vocabulary numbers its words 0, 1, 2, … with no word twice |
| Tokenizer.BuildVocabSpec | tokenizer.py:73-97 | a word is in the vocabulary exactly when it occurs at least `min_freq` times; ids are consecutive from 0 and follow non-increasing counts |
| EventStream.FramedIsPiece | app/api/generate-stream/route.ts:18 | a `data: ` frame of a payload without line breaks holds no blank line, so it is one event |
| EventStream.SplitPiece | app/api/generate-stream/route.ts:18 | splitting a stream of framed events on blank lines gives the events back one by one |
| Json.Lookup | app/api/generate-stream/route.ts:63-65 | a field lookup finds a value exactly when the object has a field of that name |
| GenerateStream.ChooseRoute | app/api/generate-stream/route.ts:10-13 | blip and llava take the vision branch, openai the OpenAI branch, llama and mistral the Ollama branch with their model names, every other mode the stub, all after lower-casing (see also lines 85, 295, 339) |
| GenerateStream.RouteIgnoresCase | app/api/generate-stream/route.ts:10 | the branch does not depend on the case of the mode |
| GenerateStream.Frames | app/api/generate-stream/route.ts:18 | each sent piece costs its own length plus the eight characters of `data: ` and the blank line (see also line 343) |
| GenerateStream.FramesAppend | app/api/generate-stream/route.ts:18 | framing two runs of pieces is framing each in turn (see also line 343) |
| GenerateStream.CarryClosed | app/api/generate-stream/route.ts:65 | once a relay has closed, more input changes nothing (see also line 372) |
| GenerateStream.RelayBatch | app/api/generate-stream/route.ts:60-67 | the inner loop sends the pieces of the complete lines of one read and stops at the first closing line (see also lines 367-374) |
| GenerateStream.Relay | app/api/generate-stream/route.ts:52-69 | reading with a carry buffer relays exactly the complete lines of the whole concatenated input, however it is cut into reads (see also lines 359-376) |
| GenerateStream.CarryRead | app/api/generate-stream/route.ts:58-59 | one more read relays the lines completed by the carried piece plus the read, and carries the new last piece (see also lines 365-366) |
| GenerateStream.CarryEnd | app/api/generate-stream/route.ts:55-57 | the loop's last read, or a closed relay, leaves the relay of the whole input (see also lines 362-364) |
| GenerateStream.Forward | app/api/generate-stream/route.ts:64 | at most one piece is sent per line, exactly when the `response` field is truthy (see also line 371) |
| GenerateStream.RelayOllama | app/api/generate-stream/route.ts:339-376 | the Ollama relay sends the truthy `response` of every complete JSON line of the whole stream, and stops after the first `done` line |
| GenerateStream.OllamaRelaysResponses | app/api/generate-stream/route.ts:367-374 | a newline-delimited stream of chunks relays the non-empty responses in order and closes on the final done chunk |
| GenerateStream.RelayOpenAIAsWritten | app/api/generate-stream/route.ts:250-277 | the OpenAI relay as written splits every read on its own, with no carry buffer |
| GenerateStream.OpenAICutLosesLine | app/api/generate-stream/route.ts:254-275 | an event line whose read is cut in two is not forwarded at all, while the same line read whole is |
| GenerateStream.CutReadDrops | app/api/generate-stream/route.ts:254-275 | any data line cut after its second character forwards nothing |
| GenerateStream.RelayOpenAI | app/api/generate-stream/route.ts:250-277 | the corrected relay, with a carry buffer like the Ollama branches, relays the complete lines of the whole input |
| GenerateStream.OpenAIAlignedAgree | app/api/generate-stream/route.ts:250-277 | when every read ends at a line break the relay as written and the corrected relay agree |
| GenerateStream.AlignedLines | app/api/generate-stream/route.ts:254-255 | reads that end on line breaks split into the lines of their concatenation |
| GenerateStream.ContentChunkRead | app/api/generate-stream/route.ts:268 | the content of a chat-completion chunk is read from `choices[0].delta.content` |
| GenerateStream.Cut | app/api/generate-stream/route.ts:320-322 | a text over n characters is cut to n characters plus `...`; a shorter one is kept |
| GenerateStream.Take | app/api/generate-stream/route.ts:315 | `slice(0, n)` keeps min(n, length) characters |
| GenerateStream.StubText | app/api/generate-stream/route.ts:313-323 | a concise stub is at most 83 characters long |
| GenerateStream.ConciseStub | app/api/generate-stream/route.ts:315-323 | for a mode without `stub]` or line breaks, the concise stub is the first 120 prompt characters, trimmed, cut to 80 |
| GenerateStream.StubTagAt | app/api/generate-stream/route.ts:319 | the lazy pattern matches the stub tag and the spaces after it |
| GenerateStream.WantsImageWords | app/api/generate-stream/route.ts:158-161 | a prompt asks for an image exactly when it is under 500 characters and holds one of image, picture, photo, draw in any case (the longer keywords contain these) |
| GenerateStream.LineEnd | app/api/generate-stream/route.ts:169 | the lazy `.+?` group stops at the first line terminator |
| GenerateStream.ImagePromptQuestion | app/api/generate-stream/route.ts:168-172 | in an enhanced prompt, the image request is the trimmed text of the first `Question:` line |
| ModelConsole.FindData | frontend/components/ModelConsole.tsx:88 | `find` returns the first line starting with `data: `, and nothing only when no line does |
| ModelConsole.DeltaTextAppend | frontend/components/ModelConsole.tsx:82-97 | the text of two runs of blocks is the text of each in turn |
| ModelConsole.ReadStream | frontend/components/ModelConsole.tsx:71-98 | the reading loop collects the deltas of exactly the complete blocks of the whole concatenated stream, however it is cut into reads, for any reading of one block (the console reads each block with `BlockDelta`) |
| ModelConsole.AppendDeltas | frontend/components/ModelConsole.tsx:82-97 | the inner loop appends the delta of each complete block in order |
| ModelConsole.ReceiveStep | frontend/components/ModelConsole.tsx:77-81 | one more read adds the blocks completed by the carried part plus the read, and carries the new last part |
| ModelConsole.DeltaBlockText | frontend/components/ModelConsole.tsx:88-95 | a backend delta block is one event and reads back as its delta |
| ModelConsole.DoneText | frontend/components/ModelConsole.tsx:84-87 | the done block is one event and adds no text |
| ModelConsole.PiecesText | frontend/components/ModelConsole.tsx:82-97 | the deltas of a run of backend blocks are read back in order |
| ModelConsole.BackendStreamText | frontend/components/ModelConsole.tsx:71-98 | assuming `/api/generate-stream` passes the backend's blocks through unchanged (that route is not part of this model), the console's text from the backend's stream is the concatenation of the deltas the backend sent |
| ModelConsole.SplitJoinWords | frontend/components/ModelConsole.tsx:71-98 | words without spaces joined by spaces split back into those words |
| ModelConsole.DropsGroupSpaces | frontend/components/ModelConsole.tsx:93 | assuming `/api/generate-stream` passes the backend's blocks through unchanged (that route is not part of this model), four words streamed by the backend's chunker come out as `a b cd`: the space between two groups is lost |
| ModelConsole.TwoDeltasText | frontend/components/ModelConsole.tsx:93 | two deltas are concatenated with nothing between them |
| ModelConsole.LoggedText | frontend/components/ModelConsole.tsx:101-108 | the saved text is the streamed text when there is one, otherwise the (stale) output; nothing is saved only when both are empty |
| ModelConsole.CollectFollowUp | frontend/components/ModelConsole.tsx:217-235 | the follow-up stream is collected as the raw concatenation of its reads |
| ModelConsole.FollowUpKeepsFraming | frontend/components/ModelConsole.tsx:217-235 | so a follow-up read from the backend keeps the event framing and starts with `data: ` |
| ProgressiveResponse.DropTerminators | components/ProgressiveResponse.tsx:48 | a run of `.`, `!`, `?` is one separator: the rest never starts with one |
| ProgressiveResponse.SplitSentences | components/ProgressiveResponse.tsx:48 | no piece of the split holds a terminator |
| ProgressiveResponse.Sentences | components/ProgressiveResponse.tsx:48 | the kept sentences are all non-blank |
| ProgressiveResponse.SplitNoTerminator | components/ProgressiveResponse.tsx:48 | a text without terminators is a single piece |
| ProgressiveResponse.ConciseCount | components/ProgressiveResponse.tsx:75 | `min(2, ceil(0.3 n))` is 0 for none, 1 for up to three sentences and 2 beyond |
| ProgressiveResponse.SplitResponse | components/ProgressiveResponse.tsx:46-80 | an image response is never split; a long concise response is cut at its middle with both halves trimmed; a response with at most two sentences is shown whole |
| ProgressiveResponse.SentencesDealt | components/ProgressiveResponse.tsx:69-79 | beyond two sentences the first one or two form the short part and the rest the detailed part, and together they give back every sentence in order |
| ProgressiveResponse.Closed | components/ProgressiveResponse.tsx:262-291 | sentence paragraphs are the trimmed sentences each closed with a period |
| ProgressiveResponse.ParagraphsFallback | components/ProgressiveResponse.tsx:251-263 | paragraphs come from blank-line breaks when there are several, else from line breaks, else from sentences, and none is blank |
| ProgressiveResponse.ShowProgressive | components/ProgressiveResponse.tsx:155-156 | the expandable view is used only in concise style, exactly when there is a non-blank detailed part or a follow-up handler |
| HomePage.DataPayloads | app/page.tsx:725-729 | at most one payload per event block, only for blocks starting with `data: ` |
| HomePage.DataPayloadsAppend | app/page.tsx:725-729 | the payloads of two runs of blocks are those of each in turn |
| HomePage.StreamFromAPI | app/page.tsx:699-731 | the generator yields the payloads of exactly the complete blocks of the whole concatenated stream, however it is cut into reads |
| HomePage.PayloadsRead | app/page.tsx:722-724 | one more read yields the blocks completed by the carried part plus the read, and carries the new last part |
| HomePage.DataPayloadsPrefixed | app/page.tsx:726-727 | `slice(6)` of a `data: ` block gives its payload back |
| HomePage.ReadsBackFrames | app/page.tsx:699-731 | a stream of framed pieces sent by the streaming route is read back as exactly those pieces |
| HomePage.HeartbeatSkipped | app/page.tsx:726 | a heartbeat comment yields nothing |
| HomePage.Bits | app/page.tsx:302 | a value written as n binary digits |
| HomePage.JorBinarySpellsJor | app/page.tsx:302 | the hidden code is the three 8-bit codes of `J`, `O`, `R` (see also line 366) |
| HomePage.Unspaced | app/page.tsx:367 | removing whitespace leaves no whitespace and never lengthens the text |
| HomePage.UnspacedIgnoresSpace | app/page.tsx:367 | a whitespace character anywhere does not change the comparison |
| HomePage.Dispatch | app/page.tsx:919-967 | a blank prompt does nothing; video and image-generation modes go to their handlers first; a signup in progress takes the prompt as its answer; a vision mode without an image is refused; a signed-out user is offered a signup; otherwise the request is charged 3 credits for vision, 1 otherwise |
| HomePage.Home.constructor | app/page.tsx:17-39 | the page starts with empty texts, no signup flow, at the email step, with empty signup data |
| HomePage.Home.SignupYes | app/page.tsx:140-146 | yes asks for the email, clears the prompt and starts collecting from the email step with empty data |
| HomePage.Home.SignupNo | app/page.tsx:148-153 | no ends the signup flow and changes nothing else |
| HomePage.Home.SkipPhone | app/page.tsx:156-162 | skipping stores an empty phone number and asks for the password |
| HomePage.Home.SignupInput | app/page.tsx:164-190 | each step stores the answer in its field and asks the next question; "skip" leaves the phone empty; the password step stores all data and goes to /signup |
| HomePage.Home.Transmit | app/page.tsx:919-965 | the page acts as `Dispatch` says: a signup answer advances the conversation, a signed-out user is asked to sign up, and any other outcome leaves the signup state alone |
| HomePage.Home.PromptChange | app/page.tsx:362-372 | the prompt is stored, and the greeting appears exactly when the prompt without whitespace is the hidden code |
| HomePage.Converse | app/page.tsx:140-190 | saying yes and answering email, name, "skip" and password stores exactly those answers and goes to /signup (see also lines 934-939) |
| HomePage.RequiredCredits | app/page.tsx:967 | a request costs 1 or 3 credits |
| HomePage.VisionPriceMatchesRoute | app/page.tsx:23 | the modes charged the vision price are the modes the streaming route sends to the vision branch (see also line 967) |
| TextMode.ReplaceAll | app/text-mode/page.tsx:22-27 | after replacing every `c` by a text without `c`, no `c` is left |
| TextMode.EscapeHtmlPerChar | app/text-mode/page.tsx:21-28 | the five chained replacements escape each character on its own: `&` first, so no entity is escaped twice |
| TextMode.EscapedInert | app/text-mode/page.tsx:21-28 | escaped text holds no `<`, `>`, `"` or `'`, and every `&` starts one of the five entities (see also line 82) |
| TextMode.UnescapeEscapeHtml | app/text-mode/page.tsx:21-28 | unescaping the five entities gives the original text back |
| TextMode.Entry | app/text-mode/page.tsx:34-95 | each line adds at most one entry |
| TextMode.FormatLines | app/text-mode/page.tsx:17-98 | an empty text formats to nothing; otherwise the loop concatenates the entries of every line, a non-blank line wrapped around its rendered HTML |
| TextMode.FormatMarkdownText | app/text-mode/page.tsx:17-98 | as written: the entries of every line, each non-blank line marked by the five passes, each rewriting the whole text the previous one wrote, then escaped as a whole and its placeholders replaced by tags |
| TextMode.FormatMarkdownTextCorrected | app/text-mode/page.tsx:17-98 | the same loop with the passes applied only to the text still plain and each marked piece put straight between its tags, without placeholders |
| TextMode.SubstituteIdle | app/text-mode/page.tsx:85-91 | a placeholder pass whose start placeholder holds a character the line lacks leaves the line as it is |
| TextMode.Substitute | app/text-mode/page.tsx:85-91 | a placeholder pass brings in tags only: every piece of its result is a piece of the line or a tag |
| TextMode.SubstituteHead | app/text-mode/page.tsx:88 | a start placeholder, a run without `_` and the end placeholder become the run between the style's tags |
| TextMode.SubstituteMiss | app/text-mode/page.tsx:88 | when the run after a start placeholder is followed by `_` and a character other than `_`, no match starts there and the placeholder's first character is kept |
| TextMode.OnlyBoldActs | app/text-mode/page.tsx:85-91 | on text without `I`, `H` and `P`, only the bold pass of the six can change anything |
| TextMode.UnderscoreNotBold | app/text-mode/page.tsx:55-88 | bold text holding an underscore, such as `**snake_case**`, does not come out bold: the line starts with the placeholder's underscores, while the corrected rendering starts with the bold tag |
| TextMode.LiteralPlaceholderBold | app/text-mode/page.tsx:82-88 | plain text that holds the bold placeholders around a lower-case word comes out bold, the same as a marked bold word |
| TextMode.FencedUnfenced | app/text-mode/page.tsx:51-61 | the triple or double pass keeps a text with no run of three, or two, asterisks as it is |
| TextMode.StarFreeItalic | app/text-mode/page.tsx:64-66 | the italic pass keeps a text without asterisks as it is |
| TextMode.NoLeadingLetter | app/text-mode/page.tsx:69-78 | neither the script-pattern pass nor the character-name pass acts on a text that does not start with a letter, such as one opening with a placeholder |
| TextMode.PlainLine | app/text-mode/page.tsx:50-78 | a line without asterisks that does not start with a letter comes out of the marking stage unchanged, as written and corrected |
| TextMode.BoldNoTriple | app/text-mode/page.tsx:51-53 | the triple pass leaves `**w**` alone when `w` has no asterisk |
| TextMode.BoldDouble | app/text-mode/page.tsx:56-62 | the double pass turns `**w**`, `w` without asterisks and not ending with `:` once trimmed, into one bold piece holding `w` |
| TextMode.BoldLine | app/text-mode/page.tsx:50-78 | the page marks the line `**w**` as the bold placeholders around `w`, and no later pass changes that |
| TextMode.BoldLineCorrected | app/text-mode/page.tsx:50-78 | the corrected marking stage gives the line `**w**` as one bold piece |
| TextMode.BoldLineRenders | app/text-mode/page.tsx:50-91 | the line `**w**` of a lower-case word is shown as `w` inside the bold tag, by the page and by the corrected renderer alike |
| TextMode.SnakeCaseLine | app/text-mode/page.tsx:50-91 | the line `**snake_case**` is not shown bold by the page, while the corrected renderer shows it bold |
| TextMode.TitleHeader | app/text-mode/page.tsx:69-71 | a text starting `Title:` has that prefix marked as a pattern header |
| TextMode.TitleLine | app/text-mode/page.tsx:50-78 | a line `Title:` plus text without asterisks is marked as the pattern header placeholders around `Title:`, then the rest; the character-name pass does not act, the line holding `__` |
| TextMode.TitleLineCorrected | app/text-mode/page.tsx:50-78 | the corrected marking stage gives the same line as a pattern header then the rest as plain text |
| TextMode.OneDivPerLine | app/text-mode/page.tsx:34-95 | the number of wrapped lines among the entries equals the number of non-blank lines (spacers aside) |
| TextMode.SpacerBetween | app/text-mode/page.tsx:40-44 | a blank line gives a spacer exactly when it lies between two non-blank lines, and nothing otherwise |
| TextMode.StyledAnyText | app/text-mode/page.tsx:82-91 | for the corrected renderer, a styled piece with any text (underscores and placeholders included) opens the line with its style's tag, followed by the text escaped, which reads back to the text and cannot open a tag |
| TextMode.RenderEscapes | app/text-mode/page.tsx:82-91 | for the corrected renderer, which puts each escaped piece straight between its tags: the visible text survives escaping, and no piece's text can open a tag |
| TextMode.Outcome | app/text-mode/page.tsx:511-521 | the stream succeeds exactly when its text is not blank; otherwise it fails with "No text was generated" |
| TextMode.ReadTextStream | app/text-mode/page.tsx:444-521 | the reading loop collects the data lines of every read's complete lines, then the leftover data line, and reports the outcome |
| TextMode.ReadBatch | app/text-mode/page.tsx:461-493 | the inner loop collects the data lines of one read until a `[DONE]` or done line |
| TextMode.CollectFrom | app/text-mode/page.tsx:463-491 | from any line on, a `[DONE]` or done line ends the batch with nothing more, and any other line adds its content before what the later lines add |
| TextMode.TextRead | app/text-mode/page.tsx:457-459 | one more read adds the lines completed by the carried part plus the read, and carries the new last part |
| TextMode.ReadBoundariesIrrelevant | app/text-mode/page.tsx:449-494 | without a stop line, the collected text does not depend on where the reads are cut |
| TextMode.ReadableKind | app/text-mode/page.tsx:466-485 | a data line with readable content is a chunk of that content |
| TextMode.CollectDataLines | app/text-mode/page.tsx:461-493 | the lines of framed pieces collect to the pieces' concatenation |
| TextMode.ReadsRouteFrames | app/text-mode/page.tsx:444-506 | a stream of framed readable pieces sent by the streaming route is read as their concatenation |
| TextMode.AITextReplace | app/text-mode/page.tsx:663-673 | nothing changes without a selection, a mounted editor and a range; otherwise the selection and the range are cleared |
| TextMode.SpliceInRange | app/text-mode/page.tsx:663-673 | the new text replaces exactly the selected range, and replacing the range by its own text changes nothing |
| AISettings.ExposedKeysSafe | lib/ai-settings.ts:4-25 | the keys exposed to the public are four of the seven setting keys, and the API key, the prompt sections and the guardrail are not among them |
| AISettings.MapSettings | lib/ai-settings.ts:27-32 | a missing list gives the empty map; otherwise the map's keys are exactly the listed keys |
| AISettings.LastSettingWins | lib/ai-settings.ts:28-31 | when a key occurs more than once the last occurrence wins, and a null value becomes "" |
| AISettings.Contribution | lib/ai-settings.ts:64-70 | a section contributes nothing exactly when both its trimmed title and trimmed content are empty |
| AISettings.Contributions | lib/ai-settings.ts:62-71 | the kept contributions are all non-empty, at most one per section |
| AISettings.AssembleAppend | lib/ai-settings.ts:62-72 | the prompt of two runs of sections is their prompts joined by a blank line, an empty side dropping out |
| AISettings.Eligible | lib/ai-settings.ts:63 | only sections with a string title and a string content are kept |
| AISettings.BuildSystemPromptFromSections | lib/ai-settings.ts:53-76 | no text gives ""; a text that is not a JSON array is returned as it is; an array gives the assembled prompt of its well-formed sections |
| AISettings.ParseJsonSetting | lib/ai-settings.ts:78-87 | no text or unparseable text gives the fallback; otherwise the parsed value |
| AISettings.ParseJsonSettingWritten | lib/ai-settings.ts:78-87 | a serialised value reads back as itself |
| PromptsPage.AsSections | app/public-ai/prompts/system/page.tsx:55-66 | each editor section is read as its title and content |
| PromptsPage.SectionJsonFields | app/public-ai/prompts/system/page.tsx:55-66 | a saved section carries its title and content as strings |
| PromptsPage.EligibleSections | app/public-ai/prompts/system/page.tsx:55-66 | every saved section is well-formed for the server's assembly |
| PromptsPage.PreviewMatchesServer | app/public-ai/prompts/system/page.tsx:55-66 | the live preview is exactly the prompt the server assembles from the saved sections |
| PromptsPage.AddSection | app/public-ai/prompts/system/page.tsx:42-45 | adding appends one empty "New Section" and keeps the others (see also lines 176-178) |
| PromptsPage.AddSectionPreview | app/public-ai/prompts/system/page.tsx:55-66 | adding a section appends the heading "### New Section" to the preview, after a blank line when the preview was not empty (see also lines 176-178) |
| PromptsPage.NewSectionHeading | app/public-ai/prompts/system/page.tsx:42-66 | a new section alone shows as its heading |
| PromptsPage.RemoveSection | app/public-ai/prompts/system/page.tsx:180-182 | removing drops every section with that id and keeps every other one, adding nothing |
| PromptsPage.RemoveAbsent | app/public-ai/prompts/system/page.tsx:180-182 | removing an unknown id changes nothing |
| PromptsPage.DeleteKeepsOne | app/public-ai/prompts/system/page.tsx:377-381 | the delete button, shown only with more than one section, never removes the last section |
| PromptsPage.UpdateSection | app/public-ai/prompts/system/page.tsx:170-174 | the sections with that id get the given fields; the others are unchanged |
| PromptsPage.UpdateNothing | app/public-ai/prompts/system/page.tsx:170-174 | an empty update or an unknown id changes nothing |
| PromptsPage.NormaliseAll | app/public-ai/prompts/system/page.tsx:143-149 | every loaded section is normalised with its own index |
| PromptsPage.LoadSections | app/public-ai/prompts/system/page.tsx:141-152 | loading always leaves at least one section |
| PromptsPage.LoadDefaults | app/public-ai/prompts/system/page.tsx:143-149 | a loaded section without id or title gets `section-i` and `Section i+1` |
| PromptsPage.LoadFallsBack | app/public-ai/prompts/system/page.tsx:141-152 | a missing, empty, unreadable or non-array setting loads the default sections |
| PromptsPage.Enhance | app/public-ai/prompts/system/page.tsx:276-286 | an empty answer changes nothing; otherwise the sections become the single "Enhanced Prompt" section and the preview is its heading and text |
| PublicAIChat.Prefix | app/api/public-ai/chat/route.ts:27 | a message content is cut to at most the limit and left alone when already shorter |
| PublicAIChat.Kept | app/api/public-ai/chat/route.ts:18-23 | only user and assistant messages with string role and content survive the filter |
| PublicAIChat.Cut | app/api/public-ai/chat/route.ts:25-28 | each kept message keeps its role and has its content cut to 4000 characters |
| PublicAIChat.SanitizeMessages | app/api/public-ai/chat/route.ts:14-29 | a missing or non-array history gives no messages; the result has at most 10 messages, none a system message, none longer than 4000 characters |
| PublicAIChat.KeptHistory | app/api/public-ai/chat/route.ts:18-23 | a history of well-formed user and assistant messages passes the filter unchanged |
| PublicAIChat.CutShort | app/api/public-ai/chat/route.ts:25-28 | cutting leaves messages within the limit unchanged |
| PublicAIChat.SanitizeClean | app/api/public-ai/chat/route.ts:14-29 | sanitising a short, clean history gives back that history |
| PublicAIChat.KeyPreview | app/api/public-ai/chat/route.ts:110 | the logged key preview has the key's length, shows only the last four characters and masks the rest with '*' |
| PublicAIChat.AnswerText | app/api/public-ai/chat/route.ts:61-68 | an accepted reply is non-empty and already trimmed |
| PublicAIChat.Answer | app/api/public-ai/chat/route.ts:135-153 | the visitor always gets a non-empty message: the reply, or the fallback text when the call fails |
| PublicAIChat.Chat | app/api/public-ai/chat/route.ts:71-164 | 400 "Message is required" exactly for a blank message; every other outcome is 200; a failed settings read gives the "Something went wrong" text without a call; no key gives the offline text without a call; otherwise the preamble, the sanitised history and the trimmed message are sent and the answer returned |
| PublicAIChat.Preamble | app/api/public-ai/chat/route.ts:120-128 | at most two system messages, the assembled prompt and the guardrail, each non-empty |
| PublicAIChat.OutgoingShape | app/api/public-ai/chat/route.ts:120-131 | the outgoing list is system messages first and only there, then the history, and ends with the visitor's message |
| PublicAISettings.BearerToken | app/api/public-ai/settings/route.ts:29-34 | a token exists exactly when the header starts with "Bearer " and has more after it, and it is that rest |
| PublicAISettings.AuthContext | app/api/public-ai/settings/route.ts:24-65 | admin exactly when configured, a token is given, it names a user and that user's role is "admin"; an admin always has a user id |
| PublicAISettings.Only | app/api/public-ai/settings/route.ts:68 | filtering keeps only settings whose key is in the set |
| PublicAISettings.OnlyKeys | app/api/public-ai/settings/route.ts:68 | the filtered keys are exactly the original keys that are in the set |
| PublicAISettings.OnlyTwice | app/api/public-ai/settings/route.ts:68 | filtering twice is filtering once |
| PublicAISettings.GetAISettings | lib/ai-settings.ts:34-51 | a failing read fails; no keys returns the whole table; otherwise only rows with requested keys |
| PublicAISettings.FormatPublicResponse | app/api/public-ai/settings/route.ts:67-72 | the public map holds only exposed keys, never the API key, the prompt sections or the guardrail |
| PublicAISettings.PublicResponseValues | app/api/public-ai/settings/route.ts:67-72 | the public map's keys are the stored exposed keys and its values are the mapped filtered rows |
| PublicAISettings.GetSettings | app/api/public-ai/settings/route.ts:74-107 | 503 when the server is not configured; 401 for a private read by a non-admin; a full listing only for an admin; a public read returns only exposed keys |
| PublicAISettings.ObjectEntries | app/api/public-ai/settings/route.ts:134 | every entry of the settings object names one of its fields and has a value |
| PublicAISettings.IndexEntries | app/api/public-ai/settings/route.ts:134 | an array's entries are its items keyed by their decimal index |
| PublicAISettings.Unsupported | app/api/public-ai/settings/route.ts:134-137 | no unsupported key exactly when every entry's key is a setting key; otherwise the first one that is not |
| PublicAISettings.NormaliseUpdates | app/api/public-ai/settings/route.ts:131-154 | the loop stops at the first unsupported key, and otherwise builds the payload skipping undefined values |
| PublicAISettings.PayloadRows | app/api/public-ai/settings/route.ts:143-153 | every payload row has a setting key, and a non-string value of a JSON key is stored so that it reads back as itself |
| PublicAISettings.PutSettings | app/api/public-ai/settings/route.ts:109-176 | 503 when not configured; writes only for an admin; 400 for a missing object, an unsupported key or an empty payload; otherwise upserts exactly the payload and returns the rows or 500 |
| PublicAISettings.ArrayRefused | app/api/public-ai/settings/route.ts:127-137 | a non-empty array of settings is refused on key "0"; an empty one gives an empty payload |
| Export.ItemTexts | app/api/export/route.ts:16 | one text per tag |
| Export.Flatten | app/api/export/route.ts:22 | a written value never holds a line feed; a value without one is unchanged |
| Export.Escape | app/api/export/route.ts:22-23 | an escaped value never holds a line feed; a value with a quote, comma or line feed is wrapped in quotes; any other is written as it is and holds neither quote nor comma |
| Export.Cells | app/api/export/route.ts:13-21 | every record has one cell per header |
| Export.EscapeAll | app/api/export/route.ts:13-24 | each cell is escaped on its own |
| Export.FlattenAll | app/api/export/route.ts:22 | each cell has its line breaks flattened |
| Export.Records | app/api/export/route.ts:13-24 | one record per row, in order |
| Export.ReadQuotedDouble | app/api/export/route.ts:23 | a quoted value with its quotes doubled reads back as the value |
| Export.ReadPlainField | app/api/export/route.ts:23 | an unquoted value without commas reads back as itself |
| Export.ReadCell | app/api/export/route.ts:22-23 | every escaped cell reads back as its flattened text, leaving the rest of the line |
| Export.RecordReadsBack | app/api/export/route.ts:13-24 | a record line parses back into exactly its flattened cells |
| Export.CsvReadsBack | app/api/export/route.ts:7-25 | the CSV has one header line and one line per row, and each row's line parses back to that row's cells |
| Export.Limit | app/api/export/route.ts:40 | the limit is at most 5000 and never 0; a missing, empty, unreadable or zero parameter gives 1000; otherwise the integer prefix capped at 5000 |
| Export.LimitDefault | app/api/export/route.ts:40 | no limit and an empty limit both give 1000 |
| Export.Keep | app/api/export/route.ts:70-88 | a kept row has a numeric temperature when a temperature bound is set, a numeric top-k when a top-k bound is set, and the tag when a tag is set; the top-k bounds are read with `parseInt` and no radix, so `0x10` is 16 and an unreadable bound, being NaN, keeps every row with a top-k |
| Export.IntBound | app/api/export/route.ts:79-80 | a top-k bound is unreadable exactly when the radix-less `parseInt` reads nothing, and otherwise is the integer it reads, hexadecimal after `0x` included |
| Export.Filter | app/api/export/route.ts:70-88 | the rows kept are exactly the fetched rows that pass the filter |
| Export.Given | app/api/export/route.ts:59-63 | a query parameter counts only when non-empty |
| Export.ExportQuery | app/api/export/route.ts:51-63 | the download's query is scoped to the signed-in user and uses the computed limit |
| Export.ExportGenerations | app/api/export/route.ts:29-98 | 401 without a user; a query error is a 500 with its message; otherwise the CSV of the filtered rows of that user's query |
| Generations.Keep | frontend/app/api/generations/route.ts:33-47 | this route's filter, with its checks in another order, keeps exactly the rows the download keeps, its top-k bounds read by the same radix-less `parseInt` |
| Generations.Filter | frontend/app/api/generations/route.ts:33-47 | the listing keeps the same rows as the download |
| Generations.ListQuery | frontend/app/api/generations/route.ts:17-28 | the listing's query is not scoped to any user and uses the same limit |
| Generations.ListGenerations | frontend/app/api/generations/route.ts:6-50 | a query error is a 500 with its message; otherwise the count is the number of items, which are exactly the fetched rows that pass the filter |
| LibraryControls.Truncate | app/library/LibraryControls.tsx:18-21 | an absent or empty text shows as empty; a text that fits is shown whole; a longer one is cut to n characters, the last an ellipsis |
| LibraryControls.Filter | app/library/LibraryControls.tsx:36-54 | the table shows exactly the rows that pass the controls' filter, whose top-k bounds are read by the radix-less `parseInt` the download uses |
| LibraryControls.NoFiltersKeepAll | app/library/LibraryControls.tsx:36-54 | with every control empty all rows are shown |
| LibraryControls.ExportParams | app/library/LibraryControls.tsx:84-97 | the export links carry exactly the filters that are set, and no limit |
| LibraryControls.StrsHas | app/library/LibraryControls.tsx:50 | a tag is among the row's tags as texts exactly when it is among them as JSON strings |
| LibraryControls.ShownIsExported | app/library/LibraryControls.tsx:36-54 | a row is shown exactly when the download keeps it and its model contains the model filter (see also lines 84-97) |
| LibraryControls.Ids | app/library/LibraryControls.tsx:63 | the shown ids are the shown rows' ids, in order |
| LibraryControls.Chosen | app/library/LibraryControls.tsx:64 | the selected ids are exactly the shown ids marked selected |
| LibraryControls.ChosenAll | app/library/LibraryControls.tsx:64 | when every shown id is marked, all of them are selected |
| LibraryControls.ChosenNone | app/library/LibraryControls.tsx:60-64 | with nothing marked, nothing is selected |
| LibraryControls.Library.constructor | app/library/LibraryControls.tsx:23-34 | the controls start with the given rows, no filters and no selection |
| LibraryControls.Library.SelectedIds | app/library/LibraryControls.tsx:63-64 | every selected id is shown and marked |
| LibraryControls.Library.Toggle | app/library/LibraryControls.tsx:57-59 | toggling sets that id to the given value or flips it, and leaves every other id alone |
| LibraryControls.Library.ClearSelection | app/library/LibraryControls.tsx:60-62 | clearing empties the selection |
| LibraryControls.Library.MarkAll | app/library/LibraryControls.tsx:169-171 | marking builds a map with exactly the given ids set |
| LibraryControls.Library.SelectAllButton | app/library/LibraryControls.tsx:167-173 | when every shown row is selected the button clears the selection; otherwise it selects exactly the shown rows |
| LibraryControls.Library.HeaderCheckbox | app/library/LibraryControls.tsx:209-215 | checking selects exactly the shown rows; unchecking clears the selection |
| LibraryControls.Library.BulkDelete | app/library/LibraryControls.tsx:66-82 | nothing is sent without a selection or the user's confirmation; otherwise exactly the selected ids are sent, and the selection is cleared only when the delete succeeds |
| AIManager.ReplaceFirst | app/api/ai-manager/generate-tasks/route.ts:17 | without the pattern the text is unchanged; with it, exactly one occurrence is replaced, and it is the first (see `AIManager.ReplaceFirstAt`) |
| AIManager.FirstAt | app/api/ai-manager/generate-tasks/route.ts:17 | the position found holds the pattern and no earlier position starts it |
| AIManager.ReplaceFirstAt | app/api/ai-manager/generate-tasks/route.ts:17 | `replace` with a string pattern keeps the text before the first occurrence, puts in the replacement and keeps everything after that occurrence |
| AIManager.AdminUser | app/api/ai-manager/generate-tasks/route.ts:5-56 | a user is admitted exactly when a non-empty header is given, its token names a user and that user's profile role is "admin"; the admitted user is that user |
| AIManager.BearerHeaderToken | app/api/ai-manager/generate-tasks/route.ts:17 | the header "Bearer " followed by a token yields that token |
| AIManager.FieldMap | app/api/ai-manager/questions/route.ts:117-118 | a body's fields are exactly its keys, each with the value of its last occurrence |
| AIManager.Batch | app/api/ai-manager/questions/route.ts:118-121 | a truthy non-array list fails; without a list the single item, or nothing, is used |
| AIManager.PrepareQuestion | app/api/ai-manager/generate-tasks/route.ts:193-202 | a prepared question is pending with a kind and a priority; it has a text exactly when `question_text` or `question` is truthy; `is_required` defaults to true |
| AIManager.CountOfNumeral | app/api/ai-manager/generate-tasks/route.ts:519-522 | a numeral, optional spaces and a counted word give that numeral's value as the count |
| AIManager.CollapseIdem | app/api/ai-manager/generate-tasks/route.ts:658 | collapsing whitespace twice is collapsing it once |
| GenerateTasks.Admit | app/api/ai-manager/generate-tasks/route.ts:58-71 | 403 for anyone but an administrator; 500 for a null body; otherwise the request passes exactly when `intent_id` or `user_prompt` is truthy, and 400 when neither is |
| GenerateTasks.Detect | app/api/ai-manager/generate-tasks/route.ts:502-601 | the first test that holds decides, in the order video, image, skit with script, bare skit, audio, company, and text otherwise; the count is read only for video and image requests; a clarification is asked exactly for a bare skit |
| GenerateTasks.DetectIgnoresCase | app/api/ai-manager/generate-tasks/route.ts:508 | the classification does not depend on letter case |
| GenerateTasks.VideoCount | app/api/ai-manager/generate-tasks/route.ts:519-522 | "3 videos" in a video request records 3 as the count |
| GenerateTasks.Active | app/api/ai-manager/generate-tasks/route.ts:606 | the active rules are exactly the rules marked active, none added |
| GenerateTasks.Insert | app/api/ai-manager/generate-tasks/route.ts:609 | inserting a rule into a list ordered by priority keeps it ordered and adds exactly that rule |
| GenerateTasks.ByPriority | app/api/ai-manager/generate-tasks/route.ts:609 | the rules are reordered, highest priority first, without losing or adding any |
| GenerateTasks.ApplyRules | app/api/ai-manager/generate-tasks/route.ts:604-666 | the rules loop applies each active rule once, highest priority first |
| GenerateTasks.RulesApplied | app/api/ai-manager/generate-tasks/route.ts:604-611 | the rules applied are exactly the active ones, in priority order |
| GenerateTasks.Applicable | app/api/ai-manager/generate-tasks/route.ts:686-689 | the applicable context is exactly the live entries of global or task-specific scope |
| GenerateTasks.Noted | app/api/ai-manager/generate-tasks/route.ts:693-702 | a preference or instruction only ever appends to the prompt |
| GenerateTasks.ExcludedClean | app/api/ai-manager/generate-tasks/route.ts:705-716 | after an exclusion the prompt is trimmed and has single spaces |
| GenerateTasks.NotesOnlyAppend | app/api/ai-manager/generate-tasks/route.ts:692-717 | without exclusions the context only appends to the prompt |
| GenerateTasks.AdjustPrompt | app/api/ai-manager/generate-tasks/route.ts:692-717 | the context loop adjusts the prompt entry by entry, in order |
| GenerateTasks.SeriesTask | app/api/ai-manager/generate-tasks/route.ts:779-789 | a series task is pending at the position it is pushed to |
| GenerateTasks.Run | app/api/ai-manager/generate-tasks/route.ts:778-790 | a series of n has n tasks |
| GenerateTasks.CompanyPlanShape | app/api/ai-manager/generate-tasks/route.ts:755-826 | the company plan is the logo, the flyers, the videos and the voice-over, in that order, each task's position being its index |
| GenerateTasks.CompanyTasks | app/api/ai-manager/generate-tasks/route.ts:755-826 | the company branch's loops build exactly that plan |
| GenerateTasks.OverrideAll | app/api/ai-manager/generate-tasks/route.ts:845-852 | a preference rewrites every task and keeps their number |
| GenerateTasks.PreferencesKeepPlan | app/api/ai-manager/generate-tasks/route.ts:841-854 | preferences change only services and models: number, order, titles, prompts, priorities and statuses stay |
| GenerateTasks.ApplyPreferences | app/api/ai-manager/generate-tasks/route.ts:841-854 | the preference loop gives the preferred plan |
| GenerateTasks.GenerateTasksFromIntent | app/api/ai-manager/generate-tasks/route.ts:669-857 | the plan is chosen from the intent on the context-adjusted prompt, then adjusted by the model preferences |
| GenerateTasks.PlanShape | app/api/ai-manager/generate-tasks/route.ts:720-839 | every plan is in order; an image or video intent gives one task carrying a truthy count; any other non-company intent gives one text task |
| GenerateTasks.ConvertTasks | app/api/ai-manager/generate-tasks/route.ts:214-224 | converting fails exactly on a null entry; otherwise one pending task per entry, titled "Task i" when untitled and at its index when no position is given |
| GenerateTasks.Interpret | app/api/ai-manager/generate-tasks/route.ts:159-227 | questions are asked only when allowed and the model asks for clarification with at least one question, each pending and tied to the intent; no answer means the prompt proceeds without tasks; model tasks that proceed are in order or placed as given |
| Intents.Admit | app/api/ai-manager/intents/route.ts:110-127 | 403 for anyone but an administrator; 400 exactly when `user_prompt` is not truthy; a passing request has a non-empty string prompt |
| Intents.Detect | app/api/ai-manager/intents/route.ts:169-296 | the first test that holds decides, in the order image, video, bare skit, audio, question, multi-step, and text otherwise; counts only for image and video; a clarification exactly for a bare skit |
| Intents.DetectIgnoresCase | app/api/ai-manager/intents/route.ts:175 | the classification does not depend on letter case |
| Intents.ClassifiersDisagree | app/api/ai-manager/intents/route.ts:179-208 | a request to make a video of an image is a video to the planner and an image to this route |
| Intents.ClassifiersAgreeOnPlainText | app/api/ai-manager/intents/route.ts:289-296 | a prompt none of the tests match is plain text to both classifiers, with the same confidence |
| ManagerTasks.PrepareTask | app/api/ai-manager/tasks/route.ts:134-147 | a prepared task has a type, parameters, a status and a priority; it is titled exactly when `task_title` or `title` is truthy; status defaults to pending, priority to 5 and the position to its index |
| ManagerTasks.AllTitled | app/api/ai-manager/tasks/route.ts:150-154 | the check passes exactly when every prepared task has a title |
| ManagerTasks.PostTasks | app/api/ai-manager/tasks/route.ts:109-174 | 403 for anyone but an administrator; 400 for an empty batch or any untitled task; a batch of titled tasks is inserted prepared, answering created with the inserted rows when the insert succeeds and 500 with the database's message when it fails |
| ManagerTasks.PrepareAll | app/api/ai-manager/tasks/route.ts:134-147 | one prepared row per given task, in order, each the preparation of its task |
| ManagerTasks.SelectAsWritten | app/api/ai-manager/tasks/route.ts:199-203 | the stored row is read without its start time |
| ManagerTasks.Select | app/api/ai-manager/tasks/route.ts:199-221 | the stored row is read with the start time the completion rule uses |
| ManagerTasks.Stamped | app/api/ai-manager/tasks/route.ts:214-226 | the status rules only add time fields, and every other field of the update is unchanged |
| ManagerTasks.Stamp | app/api/ai-manager/tasks/route.ts:214-226 | the route's in-place status rules give that update |
| ManagerTasks.StampWhen | app/api/ai-manager/tasks/route.ts:214-226 | the start time is set exactly on pending to in_progress; the completion time exactly when moving to completed from another status; the execution time only then and only with a known start, as now minus the start |
| ManagerTasks.StoredStartIgnored | app/api/ai-manager/tasks/route.ts:201-225 | as written, a task started earlier and completed now gets no execution time |
| ManagerTasks.StoredStartTimed | app/api/ai-manager/tasks/route.ts:218-225 | reading the stored start, the same update records the time since that start |
| ManagerTasks.Updates | app/api/ai-manager/tasks/route.ts:186 | the update holds every body field except `id` |
| ManagerTasks.PutTask | app/api/ai-manager/tasks/route.ts:177-248 | 403 for a non-administrator; 400 without an id; 404 for an unknown task; 403 for another user's task; otherwise the body's fields stamped by the status rules are sent, the stored task read as the route selects it (owner and status only, without `started_at`), and the answer is 200 with the stored row exactly when the update succeeds, else 500 |
| ManagerTasks.PutTaskCorrected | app/api/ai-manager/tasks/route.ts:177-248 | the same answers, with the stored task's `started_at` selected too (the corrected handler of the Findings row); a failed update is 500 here too |
| ManagerQuestions.Prepare | app/api/ai-manager/questions/route.ts:134-143 | a question without a truthy `intent_id` is tied to no intent |
| ManagerQuestions.AllWorded | app/api/ai-manager/questions/route.ts:146-150 | the check passes exactly when every prepared question has a text |
| ManagerQuestions.PostQuestions | app/api/ai-manager/questions/route.ts:109-170 | 403 for anyone but an administrator; 400 for an empty batch or any question without text; a batch of worded questions is inserted prepared, answering created with the inserted rows when the insert succeeds and 500 with the database's message when it fails |
| ManagerQuestions.PrepareAll | app/api/ai-manager/questions/route.ts:134-143 | one prepared row per given question, in order, each the preparation of its question |
| ManagerQuestions.AnswerUpdate | app/api/ai-manager/questions/route.ts:210-218 | an answer sets the answer, its time and status "answered"; a truthy status overrides the status; nothing else is set |
| ManagerQuestions.PutQuestion | app/api/ai-manager/questions/route.ts:173-240 | 403 for a non-administrator; 400 without an id; 404 for an unknown question; 403 for another user's; otherwise the update is sent: it holds `answer` (the body's answer) and `answered_at` (now) exactly when an answer is given, a truthy `status` or else "answered" after an answer, and no other key; the answer is 200 with the stored row exactly when the update succeeds, else 500 |
| Runway.RefundAmount | app/api/runway/route.ts:22-30 | a failed video refunds the model's price, 40 for an unknown model, never 0 (see also line 395) |
| Runway.RequestedDuration | app/api/runway/route.ts:138 | the duration is what the radix-less `parseInt` reads (hexadecimal after `0x`), and 5 when that is NaN or zero; it is never 0 |
| Runway.Gen3aDuration | app/api/runway/route.ts:200-202 | gen3a_turbo runs 10 seconds exactly when asked for 10, and 5 otherwise |
| Runway.Gen4Duration | app/api/runway/route.ts:203-205 | gen4_turbo keeps a duration in [2, 10] and clamps any other into it |
| Runway.VeoDuration | app/api/runway/route.ts:222-231 | veo3 always runs 8 seconds; veo3.1 and veo3.1_fast keep 4, 6 or 8 and use 6 otherwise |
| Runway.VeoRatioInvolution | app/api/runway/route.ts:233-240 | the veo ratio swap changes exactly the four listed ratios, and swapping twice gives the ratio back |
| Runway.PlanJob | app/api/runway/route.ts:136-304 | a missing prompt or model, a missing image for gen4/gen3a, a missing character for act_two, gen4_aleph and unknown models are 400; a planned job respects each model's duration and ratio rules |
| Runway.ThrottleRun | app/api/runway/route.ts:337-351 | the throttle counter never exceeds the number of polls |
| Runway.Poll | app/api/runway/route.ts:312-363 | the polling loop gives the outcome of the polling rules within the model's maximum number of attempts |
| Runway.ThrottledOutNeedsRun | app/api/runway/route.ts:319-343 | giving up on throttling needs 60 throttled answers in a row |
| Runway.BusyTimesOut | app/api/runway/route.ts:321-373 | a task that is never done and never throttled times out |
| Runway.Failure | app/api/runway/route.ts:392-436 | every failure refunds the model's price and carries no video; the status is 402 exactly when the message is about RunwayML credits, 500 otherwise |
| Runway.Generate | app/api/runway/route.ts:89-447 | 401 without a user; 400 without a prompt or a model; otherwise 500 without a client, since the client is built before the model's own checks; then 400 for the rest of an invalid form; 200 exactly when the job is created and polling yields a video, with its URL and no refund; a refund only on failure after the job is planned |
| Kling.RefundAmount | app/api/kling/route.ts:39-41 | every Kling model refunds 50 credits (see also line 366) |
| Kling.StartImage | app/api/kling/route.ts:179-188 | the start frame wins over the file; there is a start image exactly when one of them is given |
| Kling.LetterRun | app/api/kling/route.ts:259 | the longest run of lower-case letters at the start, stopped by the first other character |
| Kling.StripDataUri | app/api/kling/route.ts:259-264 | only a leading image data-URI prefix is removed, keeping the text after it |
| Kling.StripImageUri | app/api/kling/route.ts:183 | an uploaded image's data URI is stripped back to its base64 text (see also line 259) |
| Kling.Aspect | app/api/kling/route.ts:201-227 | the aspect ratio is always one of Kling's four; table ratios map as listed; landscape variants are 16:9; 3:4 exactly for 832:1104; an unreadable ratio stays 16:9 |
| Kling.Quotient | app/api/kling/route.ts:222-225 | a quotient above 1.5 is 16:9, below 0.6 is 9:16, and 1:1 between |
| Kling.PlainRatioAspect | app/api/kling/route.ts:219-226 | a plain W:H ratio outside the tables is classified by W/H |
| Kling.ChooseEndpoint | app/api/kling/route.ts:229-246 | image2video exactly when the model is not kling_t2v and there is a start image |
| Kling.PlanRequest | app/api/kling/route.ts:155-264 | 400 exactly for a missing prompt or model; otherwise the request carries the prompt, the duration read by the radix-less `parseInt` (5 when NaN or zero), the aspect ratio, the stripped start and end images when given and the chosen endpoint |
| Kling.Poll | app/api/kling/route.ts:305-350 | the polling loop gives the outcome of the polling rules within 60 requests, and a video always has a URL |
| Kling.SkippedPolls | app/api/kling/route.ts:328-346 | failed status requests, running tasks and a success without URL change nothing: polling goes on |
| Kling.Generate | app/api/kling/route.ts:108-405 | 401 without a user; 400 for a missing prompt or model; 500 without keys; 200 exactly when Kling accepts the created task and polling yields a video; a failure after that refunds 50 and answers 500 |
| OpenAIVideo.Credits | app/api/openai/video/route.ts:25-28 | the price is the smallest whole number of credits at least 0.16 per second: 1 for 4 seconds, 2 for 8 or 12 |
| OpenAIVideo.RequestedDuration | app/api/openai/video/route.ts:159 | the duration is what the radix-less `parseInt` reads (hexadecimal after `0x`), and 4 when that is NaN or zero; it is never 0 |
| OpenAIVideo.Validate | app/api/openai/video/route.ts:167-200 | a request passes exactly with a prompt, the sora2 model, a duration of 4, 8 or 12 and one of the two supported ratios; otherwise the first failing check's 400 |
| OpenAIVideo.NumeralDimensions | app/api/openai/video/route.ts:111-113 | a ratio of two numerals gives the width and then the height |
| OpenAIVideo.ApiKey | app/api/openai/video/route.ts:31-62 | the system key wins, then the user's own key, then the environment; there is no key exactly when all three are missing or empty |
| OpenAIVideo.MakeRequest | app/api/openai/video/route.ts:236-366 | sora-2-pro exactly with a cameo video; a multipart request exactly with an image or a cameo; a JSON request always uses sora-2 |
| OpenAIVideo.AfterCreate | app/api/openai/video/route.ts:367-500 | polling starts exactly when the answer has a task id and no URL; a non-null error answer maps to the cameo 400, the 503 for a missing endpoint or a failure; a JSON `null` body, error or result, throws on its first field access and reaches the outer 500; a URL in the answer, read `video_url`, then `url`, then `video.url`, is delivered; neither gives the no-URL failure |
| OpenAIVideo.VideoUrlOf | app/api/openai/video/route.ts:492 | the creation answer's URL is `video_url` when truthy, else `url` when truthy, else `video.url` |
| OpenAIVideo.PollUrlOf | app/api/openai/video/route.ts:669-671 | a status answer's URL is `video_url` when truthy, else `video.url` when truthy, else `url`: the nested URL comes second here |
| OpenAIVideo.UrlOrdersDiffer | app/api/openai/video/route.ts:492-671 | an answer holding both `url` and `video.url`, different, gives `url` at creation and `video.url` when polled |
| OpenAIVideo.NullCreationCrashes | app/api/openai/video/route.ts:389-492 | a creation answer whose body is JSON `null`, as an error or as a result, ends in the outer catch: 500 and the price refunded once |
| OpenAIVideo.Poll | app/api/openai/video/route.ts:502-720 | the polling loop gives the outcome of the polling rules within 120 requests, and a delivered video has a URL, read `video_url`, then `video.url`, then `url`; a first status answer that is JSON `null`, as a body or as an error body, throws into the poll error handler after one request |
| OpenAIVideo.Step | app/api/openai/video/route.ts:510-715 | one status answer that throws, is not JSON, or is JSON `null` as a body or as an error body ends polling in the poll error handler; a URL it delivers is truthy |
| OpenAIVideo.PollFrom | app/api/openai/video/route.ts:502-720 | polling ends at the first answer that decides, or times out after the last attempt; a delivered video has a truthy URL |
| OpenAIVideo.QueuedTimesOut | app/api/openai/video/route.ts:502-729 | a task still queued after all 120 polls times out |
| OpenAIVideo.StatusCode | app/api/openai/video/route.ts:116-777 | the route answers 200 exactly when a video is delivered |
| OpenAIVideo.RefundsAsWritten | app/api/openai/video/route.ts:209-215 | as written, each call refunds the price and the first carries a reason; the missing-key, resize, unreadable-answer and no-URL exits call the refund a second time to read the balance (see also lines 283-289, 478-484, 735-742) |
| OpenAIVideo.ReturnedAsWritten | app/api/openai/video/route.ts:206-744 | as written, an exit before the charge gives back nothing, the four double-call exits give back twice the price, every other failing exit the price once |
| OpenAIVideo.Refunds | app/api/openai/video/route.ts:206-744 | as intended, every call is a logged refund of the price |
| OpenAIVideo.MissingKeyRefundsTwice | app/api/openai/video/route.ts:206-218 | a valid request with no key anywhere gives back twice the price |
| OpenAIVideo.RefundOnce | app/api/openai/video/route.ts:206-744 | as intended, a refund happens only after sign-in and validation, in one call giving back exactly the price; a delivered video, a guest or an invalid request gets none |
| OpenAIVideo.Generate | app/api/openai/video/route.ts:116-777 | the route as written: the reply's status and URL are those of the route's exit, and the credits given back are those of the refund calls that exit makes as written |
| OpenAIVideo.GenerateCorrected | app/api/openai/video/route.ts:116-777 | the corrected route: same status and URL, with one refund of the price per failing exit |
| VideoMode.Compatible | app/video-mode/page.tsx:182-217 | the model is kept; veo, gen3a and Kling ratios and veo and gen3a durations are forced into the model's supported sets, gen4 durations into 2, 5 or 10; anything already supported is kept, and other models are untouched |
| VideoMode.CompatibleSettles | app/video-mode/page.tsx:182-217 | the effect settles after one run: running it again changes nothing |
| VideoMode.RunwayKeepsDuration | app/video-mode/page.tsx:182-217 | the durations the page settles on are ones the Runway route keeps |
| VideoMode.VideoModePage.constructor | app/video-mode/page.tsx:18-21 | the page starts on gen4_turbo, 1280:720 and 5 seconds |
| VideoMode.VideoModePage.AdjustForModel | app/video-mode/page.tsx:182-217 | one run of the effect leaves the page on the compatible settings |
| VideoMode.PreCheck | app/video-mode/page.tsx:475-501 | generation starts exactly with a non-blank prompt, the image gen4/gen3a need, the character act_two needs, a start frame or image for kling_i2v, and a signed-in user |
| VideoMode.RequiredCredits | app/video-mode/page.tsx:520-533 | the price is the table's, 40 for an unknown model |
| VideoMode.RefundMatchesCharge | app/video-mode/page.tsx:520-533 | each route refunds exactly what the page charged for every priced model |
| VideoMode.RouteFor | app/video-mode/page.tsx:593 | models whose name starts with "kling" go to the Kling route, all others to Runway |
| VideoMode.RunwayForm | app/video-mode/page.tsx:566-590 | the form carries the prompt, model, ratio and duration; the image for every model but act_two and kling_i2v; the character only for act_two |
| VideoMode.RunwayAcceptsPage | app/video-mode/page.tsx:182-217 | a settled, checked request for a Runway model is accepted, and gets the duration the page shows (see also lines 475-590) |
| VideoMode.AlephChargedNotRefunded | app/video-mode/page.tsx:526 | gen4_aleph is charged 120 credits but the route answers 400 before its refund path (see also line 829) |
| VideoMode.KlingFormAsWritten | app/video-mode/page.tsx:580-590 | as written kling_i2v sends only its frames, other Kling models only the image |
| VideoMode.KlingImageDropped | app/video-mode/page.tsx:493-495 | a kling_i2v request with an image and no start frame passes the page's check but is sent to text2video (see also lines 580-587) |
| VideoMode.KlingForm | app/video-mode/page.tsx:580-590 | the image is sent as the file as well, so the route falls back to it |
| VideoMode.KlingAcceptsPage | app/video-mode/page.tsx:182-217 | a settled, checked Kling request is accepted, kling_i2v goes to image2video, and the aspect is the table's for the ratio the page chose (see also lines 475-590) |
| ImageMode.SupportedRatios | app/image-mode/page.tsx:96-146 | every model's list starts with the square ratio; the two OpenAI models get their three sizes, every other model Runway's list |
| ImageMode.ImageModePage.KeepRatioSupported | app/image-mode/page.tsx:205-213 | the effect keeps a supported ratio and replaces an unsupported one by the model's first |
| ImageMode.SettledRatio | app/image-mode/page.tsx:205-213 | the settled ratio is always supported: the same ratio when it was, the square otherwise |
| ImageMode.RatioSettles | app/image-mode/page.tsx:205-213 | after one run the effect finds nothing to change |
| ImageMode.SquareAlwaysSupported | app/image-mode/page.tsx:96-146 | switching between models keeps the square ratio |
| ImageMode.RequiredCredits | app/image-mode/page.tsx:429-439 | the price is never 0: the table's price when non-zero, and 8 for a free or unknown model |
| ImageMode.Binarised | app/image-mode/page.tsx:1320-1363 | binarising keeps the number of bytes |
| ImageMode.DarkCount | app/image-mode/page.tsx:1320-1363 | the drawn pixels among n pixels are at most n |
| ImageMode.MaskByteAt | app/image-mode/page.tsx:1320-1363 | each colour channel of a pixel becomes 0 where the pixel was drawn and 255 elsewhere; alpha becomes 255 |
| ImageMode.MaskIsTwoColour | app/image-mode/page.tsx:1320-1363 | a binarised mask is opaque black exactly where the original was drawn and opaque white elsewhere |
| ImageMode.MaskSettles | app/image-mode/page.tsx:1320-1363 | binarising a mask again changes nothing and finds the same drawn pixels |
| ImageMode.BinariseMask | app/image-mode/page.tsx:1320-1363 | the in-place loop leaves the binarised mask and counts the drawn pixels and all pixels |
| ImageMode.SetPixel | app/image-mode/page.tsx:1346-1361 | one pixel is painted the grey level, fully opaque, and no other byte changes |
| ImageMode.MaskProblem | app/image-mode/page.tsx:1365-1388 | the mask is accepted exactly when some pixel is drawn and at most 95% are |
| ImageMode.HandleAt | app/image-mode/page.tsx:1693-1712 | the top-left handle exactly near the top-left corner; moving only inside the area; nothing exactly away from every corner and outside the area |
| ImageMode.CornersPicked | app/image-mode/page.tsx:1693-1712 | on a large enough area, a click on each corner takes that corner |
| ImageMode.InteriorMoves | app/image-mode/page.tsx:1693-1712 | a click inside, away from both vertical edges, moves the area |
| ImageMode.Selection | app/image-mode/page.tsx:1827-1837 | a drag selects an area exactly when it is larger than 10 pixels both ways, and the area holds both end points |
| ImageMode.SelectionSymmetric | app/image-mode/page.tsx:1827-1837 | dragging either way selects the same area |
| ImageMode.Crop.MouseUp | app/image-mode/page.tsx:1826-1844 | releasing commits a large enough selection to the area and its inputs, and always ends selecting and resizing |
| ImageMode.CacheBust | app/image-mode/page.tsx:682 | the URL gets `_t=<now>` appended with '&' when it already has a query and '?' otherwise (see also line 1454) |
| MemoryEditors.RemoveAt | frontend/components/MemoryReview.tsx:53 | removing position d keeps every other element, in order; a position past the end changes nothing |
| MemoryEditors.Picked | frontend/components/MemoryReview.tsx:69 | the chosen elements are at most the list |
| MemoryEditors.AllIndices | frontend/components/MemoryReview.tsx:20 | every index below n, and nothing else |
| MemoryEditors.ShiftedMembers | frontend/components/MemoryReview.tsx:56-64 | after deleting d, an index is selected exactly when it was selected below d or its successor was selected at or above d; d itself goes |
| MemoryEditors.PickedAll | frontend/components/MemoryReview.tsx:69 | choosing every index picks the whole list; choosing none picks nothing |
| MemoryEditors.DeleteKeepsSelection | frontend/components/MemoryReview.tsx:52-69 | after deleting a memory the renumbered selection picks the same memories as before, minus the deleted one |
| MemoryEditors.FullSelection | frontend/components/MemoryReview.tsx:73-79 | a selection has n members exactly when every index is selected |
| MemoryEditors.Apply | frontend/components/MemoryReview.tsx:36-40 | a change sets exactly its one field |
| MemoryEditors.MemoryReview.constructor | frontend/components/MemoryReview.tsx:18-20 | the dialog opens on the given memories, none being edited, all selected |
| MemoryEditors.MemoryReview.Edit | frontend/components/MemoryReview.tsx:22-24 | editing marks that memory and changes nothing else |
| MemoryEditors.MemoryReview.SaveEdit | frontend/components/MemoryReview.tsx:26-28 | saving an edit only ends editing |
| MemoryEditors.MemoryReview.CancelEdit | frontend/components/MemoryReview.tsx:30-34 | cancelling restores the memories the dialog opened with and keeps the selection |
| MemoryEditors.MemoryReview.ChangeMemory | frontend/components/MemoryReview.tsx:36-40 | one field of one memory changes and nothing else |
| MemoryEditors.MemoryReview.Toggle | frontend/components/MemoryReview.tsx:42-50 | toggling flips that index and no other |
| MemoryEditors.MemoryReview.Delete | frontend/components/MemoryReview.tsx:52-66 | deleting removes that memory and renumbers the selection |
| MemoryEditors.MemoryReview.Chosen | frontend/components/MemoryReview.tsx:68-71 | the saved memories are the selected ones in list order |
| MemoryEditors.MemoryReview.SelectAll | frontend/components/MemoryReview.tsx:73-79 | a full selection is cleared; otherwise every memory is selected |
| MemoryEditors.CancelAfterDelete | frontend/components/MemoryReview.tsx:30-66 | after deleting the first of three memories and cancelling an edit, saving takes the first two memories instead of the last two |
| MemoryEditors.Added | frontend/components/TagEditor.tsx:12-18 | an accepted tag is appended trimmed; anything else leaves the list as it is |
| MemoryEditors.AddedClean | frontend/components/TagEditor.tsx:12-18 | adding keeps a list of distinct trimmed entries so, and the new entry is trimmed |
| MemoryEditors.Without | frontend/components/TagEditor.tsx:19-21 | removing drops every occurrence of the tag and keeps every other one, adding nothing |
| MemoryEditors.WithoutClean | frontend/components/TagEditor.tsx:19-21 | removing keeps a clean list clean, and removing an absent tag changes nothing |
| MemoryEditors.AddThenRemove | frontend/components/TagEditor.tsx:12-21 | adding a new tag and removing it gives the list back |
| MemoryEditors.TagEditor.constructor | frontend/components/TagEditor.tsx:5-6 | the editor starts with the given tags, or none, and an empty input |
| MemoryEditors.TagEditor.Receive | frontend/components/TagEditor.tsx:10 | a new `initial` prop replaces the tags with it, or with none, and keeps the typed input |
| MemoryEditors.TagEditor.AddTag | frontend/components/TagEditor.tsx:12-18 | an accepted tag is appended and the input cleared; otherwise nothing changes |
| MemoryEditors.TagEditor.RemoveTag | frontend/components/TagEditor.tsx:19-21 | every occurrence of the tag is dropped; the input stays |
| MemoryEditors.TagEditor.Type | frontend/components/TagEditor.tsx:55 | typing replaces the input and nothing else |
| MemoryEditors.TagEditor.KeyDown | frontend/components/TagEditor.tsx:40-42 | Enter adds the typed text as a tag; other keys change nothing |
| MemoryEditors.FindParent | components/MemoryForm.tsx:75 | the parent found has that id and is listed; nothing is found exactly when no listed parent has it |
| MemoryEditors.MemoryForm.constructor | components/MemoryForm.tsx:26-35 | a new form starts empty with salience 0.5, type core, priority 1, category general, no parent, level 0; an edited one takes the memory's values, falsy ones replaced by those defaults |
| MemoryEditors.MemoryForm.Submitted | components/MemoryForm.tsx:37-52 | nothing is submitted when the trimmed concept or data is empty; otherwise the trimmed form without blank connections |
| MemoryEditors.MemoryForm.AddConnection | components/MemoryForm.tsx:54-59 | a new, non-blank connection is appended trimmed and the input cleared; otherwise nothing changes |
| MemoryEditors.MemoryForm.RemoveConnection | components/MemoryForm.tsx:61-63 | removing a position removes that connection only |
| MemoryEditors.MemoryForm.ChangeParent | components/MemoryForm.tsx:72-83 | no parent puts the memory at level 0; a listed parent sets the level one below it and its category; an unlisted id only sets the id |
| MemoryEditors.SubmittedTrimmed | components/MemoryForm.tsx:37-52 | a submitted memory has a non-blank trimmed concept and data and no blank connection |
| MemoriesRoute.ParentFilterOf | app/api/memories/route.ts:44-51 | the text `null` asks for root memories; a missing or empty parameter asks for none; any other text for the children of that id |
| MemoriesRoute.LevelFilterOf | app/api/memories/route.ts:53-56 | a missing or empty parameter filters nothing; otherwise the level is unreadable exactly when the radix-less `parseInt` reads nothing, and is the integer it reads, hexadecimal after `0x` included |
| Numbers.ParseIntAuto | app/api/memories/route.ts:55 | `parseInt` with no radix reads like radix 10 unless the text, after leading whitespace and a sign, starts with `0x` or `0X`; then it reads the longest run of hexadecimal digits after the prefix, signed, and NaN when that run is empty |
| Numbers.ShowParseAuto | app/api/memories/route.ts:55 | a decimal numeral reads back as its number |
| Numbers.ParseIntAutoHex | app/api/runway/route.ts:138 | `0x` followed by hexadecimal digits reads as their hexadecimal value |
| Numbers.HexEight | app/api/export/route.ts:40-80 | `0x8` reads as 8 with no radix (the top-k bounds) and as 0 with radix 10 (the limit) |
| MemoriesRoute.Select | app/api/memories/route.ts:37-56 | a query selects exactly the stored rows that match all its filters |
| MemoriesRoute.List | app/api/memories/route.ts:4-81 | 401 exactly without a header or a user for its token; then 500 exactly when the level cannot be read or the database fails the query; otherwise the listing is exactly the rows that match the query (the user, the category, roots for `null` or the children of the given id, and the level), so it holds only that user's rows, only roots for `null`, only the asked category |
| MemoriesRoute.UnfilteredListsAll | app/api/memories/route.ts:37 | with no filter the user gets every one of their memories |
| MemoriesRoute.Invalid | app/api/memories/route.ts:99-113 | the body is refused exactly when concept or data is not truthy, salience is missing, or salience is a number outside [0, 1] |
| MemoriesRoute.WithId | app/api/memories/route.ts:147-151 | exactly the rows with that id |
| MemoriesRoute.Single | app/api/memories/route.ts:147-151 | the parent found is a stored row with that id |
| MemoriesRoute.MaxSortOrder | app/api/memories/route.ts:157-163 | nothing exactly when the parent has no children; otherwise the largest sort order among them |
| MemoriesRoute.Placement | app/api/memories/route.ts:141-168 | a root takes the body's level and sort order or 0; a child of a found parent is one level below it and sorts after its last sibling |
| MemoriesRoute.NewChildSortsFirst | app/api/memories/route.ts:157-167 | a new child sorts after every existing child of its parent |
| MemoriesRoute.Create | app/api/memories/route.ts:83-204 | 400 exactly for an invalid body; 401 exactly for a valid body without a user; a created row carries the body's fields, the user, the placement and the defaults for missing fields |
| MemoriesRoute.MinimalBodyDefaults | app/api/memories/route.ts:141-184 | a body with only concept, data and salience is stored with no connections, type core, priority 1, no parent, category general, level 0 and sort order 0 |
| DocumentsRoute.UploadProblem | app/api/documents/process/route.ts:11-40 | an upload passes exactly when a file is given, at most 10 MB and of an allowed type; no file gives "No file provided" |
| DocumentsRoute.Sanitise | app/api/documents/process/route.ts:46 | the name keeps its length; safe characters stay and every other becomes '_' |
| DocumentsRoute.SanitisedIsSafe | app/api/documents/process/route.ts:46 | a sanitised name holds only safe characters and underscores, and sanitising again changes nothing |
| DocumentsRoute.StoredName | app/api/documents/process/route.ts:46 | the stored name is the time, a dash and the sanitised name |
| DocumentsRoute.StoredNameSplits | app/api/documents/process/route.ts:46 | the first dash of a stored name follows the time exactly |
| DocumentsRoute.ExtractedText | app/api/documents/process/route.ts:156-236 | an extractor that throws gives a text starting with "Error"; a non-PDF extraction gives its text |
| DocumentsRoute.ThrowFails | app/api/documents/process/route.ts:103-113 | every extractor exception fails the upload (see also lines 156-236) |
| DocumentsRoute.BlankPdfPasses | app/api/documents/process/route.ts:199-202 | a PDF with no text passes the failure test, its explanation taken as its text (see also line 103) |
| DocumentsRoute.ErrorTextRefused | app/api/documents/process/route.ts:103 | a text file whose content starts with "Error" is refused like a failed extraction |
| DocumentsRoute.Analysis | app/api/documents/process/route.ts:243-253 | the analysis memory names the file, at level 0 and salience 0.85 |
| DocumentsRoute.Simulated | app/api/documents/process/route.ts:238-310 | four root memories for a PDF or Word file and three otherwise, the analysis first |
| DocumentsRoute.WithDocument | app/api/documents/process/route.ts:125-131 | every memory gets the document's id, name and URL, one for one |
| DocumentsRoute.Preview | app/api/documents/process/route.ts:141 | the preview is the first 500 characters followed by "..." |
| DocumentsRoute.Process | app/api/documents/process/route.ts:6-153 | 400 exactly for a bad upload; a processed reply has the stored name, a text that passed the failure test, its preview and the simulated memories tied to the document |
| CreditsDialog.MaxCreditsIsFloor | components/CreditsPurchaseDialog.tsx:30-33 | the credit maximum is the largest whole number of credits whose price stays within the price maximum, and the credit minimum costs exactly the price minimum |
| CreditsDialog.MinimumGuardsAgree | components/CreditsPurchaseDialog.tsx:55-72 | for whole credits the price guards and the credit guards agree: below the price minimum exactly when below the credit minimum, above the price maximum exactly when above the credit maximum |
| CreditsDialog.Round | components/CreditsPurchaseDialog.tsx:127 | rounding lands within half a unit of its argument |
| CreditsDialog.IntOr | components/CreditsPurchaseDialog.tsx:264 | the value the radix-less `parseInt` reads when it is a non-zero number; NaN or zero gives the default |
| CreditsDialog.RealOr | components/CreditsPurchaseDialog.tsx:187 | a non-zero parsed number gives its value; no number or zero gives the default |
| CreditsDialog.PurchaseOf | components/CreditsPurchaseDialog.tsx:48-81 | a signed-out user is sent to login and only then; a checkout is requested exactly for a signed-in user with a session and an amount within the bounds, at that amount and its price |
| CreditsDialog.CreditsGuardUnreachable | components/CreditsPurchaseDialog.tsx:58-66 | the credits-minimum alert never fires: the price-minimum alert always comes first |
| CreditsDialog.Dialog.constructor | components/CreditsPurchaseDialog.tsx:27-29 | the dialog opens with 50 credits for the given user |
| CreditsDialog.Dialog.AdjustCredits | components/CreditsPurchaseDialog.tsx:115-120 | a credit step is taken exactly when the result stays within the bounds; otherwise the amount is kept |
| CreditsDialog.Dialog.AdjustPrice | components/CreditsPurchaseDialog.tsx:122-132 | a price step within the price bounds sets the rounded credits when they are within the credit bounds; otherwise the amount is kept |
| CreditsDialog.Dialog.TypeCredits | components/CreditsPurchaseDialog.tsx:263-268 | a typed amount, or the minimum when none parses, is taken when within the bounds |
| CreditsDialog.Dialog.TypePrice | components/CreditsPurchaseDialog.tsx:186-193 | a typed price, or the price minimum when none parses, sets the rounded credits when both are within their bounds |
| CreditsDialog.Dialog.Buy | components/CreditsPurchaseDialog.tsx:48-81 | a signed-in user with a session reaches the checkout for the current amount at its price |
| CreditsDialog.ClearedBoxGivesMinimum | components/CreditsPurchaseDialog.tsx:264-267 | clearing the credits box sets the minimum, which is in range |
| CreditsDialog.PriceStepRoundsToCredits | components/CreditsPurchaseDialog.tsx:122-128 | a one-dollar price step moves the amount by 21 credits (see also line 208) |
| CreditsDialog.PriceBoundsGiveCreditBounds | components/CreditsPurchaseDialog.tsx:125-129 | a price within the price bounds always rounds to credits within the credit bounds, so the inner check never refuses (see also lines 188-190) |
| CreditsPage.PurchaseOf | app/credits/page.tsx:166-192 | a signed-out user is sent to login; below 10 and above 10000 credits give their alerts exactly; a checkout is requested exactly for a signed-in user with a session and an amount in range, at its price |
| CreditsPage.CreditsPage.constructor | app/credits/page.tsx:78-83 | the page opens with 50 credits for the given user |
| CreditsPage.CreditsPage.AdjustCredits | app/credits/page.tsx:224-229 | a step is taken exactly when the result stays within [10, 10000] |
| CreditsPage.CreditsPage.TypeCredits | app/credits/page.tsx:354-359 | a typed amount, or 10 when none parses, is taken when within [10, 10000] |
| CreditsPage.CreditsPage.Buy | app/credits/page.tsx:166-192 | a signed-in user with a session always reaches the checkout at the current amount; neither bound alert can fire |
| AdminPreferences.Copied | app/api/admin/preferences/route.ts:117-139 | a field is in the update exactly when it is listed and the body defines it, with the body's value |
| AdminPreferences.BuildUpdate | app/api/admin/preferences/route.ts:117-139 | the statements one field after another build exactly the whitelisted fields the body defines |
| AdminPreferences.Put | app/api/admin/preferences/route.ts:100-165 | 401 exactly for a caller who is not an administrator; an update of the single preferences row with the whitelisted fields exactly when an administrator sends an object and the store accepts it |
| DebugUtils.FormatCredits | lib/debug-utils.ts:65-67 | the label starts with the number and the word "credit" |
| DebugUtils.FormatCreditsPlural | lib/debug-utils.ts:65-67 | the label is singular for 1 and plural for every other amount, including 0 and negatives |
| DebugUtils.FormatCreditsReads | lib/debug-utils.ts:65-67 | the label of a non-negative amount reads back as that amount |
| DebugUtils.ValidAmounts | lib/debug-utils.ts:70-72 | a whole amount is valid exactly when positive; a fraction never is; a valid amount is at least 1 |
| DebugUtils.ChangeText | lib/debug-utils.ts:82 | the change is '+' for an addition and '-' for a deduction, then the amount |
| DebugUtils.ChangeTextReads | lib/debug-utils.ts:82 | the change reads back as the amount with the operation's sign |
| DebugUtils.AppliedMeansMoved | lib/debug-utils.ts:89 | the applied flag holds exactly when the balance moved by the amount in the operation's direction; for a non-zero amount an addition and a deduction cannot both be applied |
| Transactions.Capitalise | app/transactions/page.tsx:82 | the word keeps its length and its tail, with its first letter upper-cased |
| Transactions.Capitalised | app/transactions/page.tsx:82 | every word is capitalised, one for one |
| Transactions.SplitPieces | app/transactions/page.tsx:81 | the pieces of a split hold no separator, one more than there are separators |
| Transactions.CapitalisedFree | app/transactions/page.tsx:82 | capitalising adds no underscore |
| Transactions.JoinFree | app/transactions/page.tsx:83 | joining pieces without an underscore by a space gives a text without an underscore |
| Transactions.JoinCapitalisedLength | app/transactions/page.tsx:79-84 | swapping underscores for spaces and capitalising keeps the length |
| Transactions.FormatTypeShape | app/transactions/page.tsx:79-84 | the readable type has no underscore, is as long as the stored type, and has one word per underscore plus one |
| Transactions.FormatTypeWords | app/transactions/page.tsx:79-84 | words joined by underscores are shown as the same words capitalised and joined by spaces |
| Transactions.DirectionAgrees | app/transactions/page.tsx:86-97 | the up icon, the green colour and the '+' sign each appear exactly for a positive amount; '-' exactly for a negative one; zero is shown bare (see also line 226) |
| Transactions.ShortReference | app/transactions/page.tsx:215-218 | a reference is shown exactly when present and non-empty, as "ID: ", its first eight characters and "..." |

## Left out

- The model's numerics: the LSTM/GRU forward pass, softmax and the multinomial draw are parameters. Temperature scaling uses exact reals, so float rounding and the `1e-6` floor's effect on float overflow are not modelled.
- `torch.topk`'s order among equal logits is unspecified. The model ranks ties by lower index and proves only the top-k property.
- `hf_backend.py` (a thread plus a streamer over the transformers library), the sentencepiece tokenizer class, the training and preprocessing scripts, and the numpy save calls of `load_encoded_data.py` are library wrappers and I/O.
- All network, database and storage calls (Supabase, Stripe, OpenAI, Runway, Kling, ElevenLabs) become parameters that return the service's answer. The routes that only forward to such services are not part of this model. So are `app/api/generate/route.ts` and `frontend/app/api/generate/route.ts`, which are stubs plus provider calls.
- Timing is left out: poll sleeps, the 30 ms pacing of the streaming endpoint, heartbeats, progress timers and the one-hour expiry of the signup state. Only attempt counts and ordering are modelled. Timestamps are parameters.
- Rendering and browser APIs are left out: JSX, effect scheduling, canvas drawing, zoom and pan, DOM selection ranges, FileReader, localStorage, speech recognition and console logging.
- Kling: the JWT signing of the request is left out.
- OpenAIVideo: the `audio_enabled` flag is only logged by the route and is not modelled. An error whose `param` is not a string is read as naming no media parameter. An array `param` would make `includes` test membership instead.
- Price arithmetic uses exact decimals. The floating-point rounding of `customCredits * 0.048` and of the price inputs is not modelled, and neither are the pricing and tier pages.
- GenerateTasks: the regular expressions built from user text in `applyRulesToPrompt` are a parameter. Only the active-rule filter and the priority order are modelled.
- GenerateTasks.Excluded: the whole-word, case-insensitive removal of `generateTasksFromIntent` (``new RegExp(`\\b${word}\\b`, 'gi')``) is the parameter `remove`. So is what happens to an excluded word that is not a valid pattern, such as one holding `(`, for which the route throws a `SyntaxError`.
- ManagerTasks and ManagerQuestions: the DELETE and GET handlers only call the database and are left out. The context and rules routes, and the language-model call of `processWithLLM`, are not part of this model.
- Runway: the VEO ratio table, looked up with a ratio that names an inherited object key such as `constructor`, would give a function. The model swaps only the four listed ratios and passes every other ratio through.
- ImageMode.BinariseMask: pixel buffers whose length is not a multiple of 4 are not considered, because canvas image data always has four channels.
- DocumentsRoute.ExtractedText: the fallback branch for other file types is modelled only by its outcome. The document fields of the memory form are carried unchanged.
- MemoriesRoute.List: the ordering of the result is done by the database and is not modelled. A `parent_id` parameter is always text here. A level filter that does not parse is always a failed query; any other database failure is the parameter `fails`.
- GenerateTasks.ApplyPreferences: a stored preference whose `context_value` is `null` makes `ctx.context_value.model` throw when a task exists, and the route answers 500; the model reads it as naming no model. The context route refuses to store a falsy `context_value`, so the application cannot produce such a row.
- MemoryEditors: the Enter-key handler of the memory form only calls `addConnection` and is not modelled separately.
- DebugUtils.FormatCredits: non-integer amounts are not modelled. DebugUtils.ValidAmounts takes amounts as exact reals, so NaN and Infinity are not modelled.
- Transactions: the date formatting of the history is left out.
- Strings.IsSpace: JavaScript's `\s` and `trim`, and Python's `\s`, `strip` and `split()`, also treat Unicode spaces such as U+00A0 as whitespace; the model narrows them to the six ASCII whitespace characters. This applies to Strings.Trim, Strings.TrimStart, Strings.TrimEnd and Strings.Words.
- Strings.ToLower: maps ASCII capitals only; `toLowerCase()` and `lower()` also map other capitals.
- Tokenizer.RemovePunctuation: Python's `\w` also takes accented letters and other scripts' letters and digits; the model keeps only ASCII letters, ASCII digits and `_`, so it removes more than the original on non-ASCII text.
- Tokenizer.Collapse: `\s+` also matches Unicode spaces such as U+00A0, which the model keeps as ordinary characters.
- Tokenizer.CollapseSpaced: single-spaced only with respect to ASCII whitespace, for the same reason.
- Tokenizer.NormalForm: without ASCII whitespace at either end; Unicode spaces may remain.
- Tokenizer.Tokenizer.PreprocessText: with lowercasing on, no ASCII capital is left; non-ASCII capitals, which `lower()` maps, are kept by the model.
- Tokenizer.Tokenizer.Tokenize: tokens hold no ASCII whitespace; Python's `split()` also splits at Unicode spaces.
- LoadEncodedData.Load: a token is an integer when it is an optional sign and ASCII digits. Python's `int()` also accepts surrounding whitespace, underscores between digits (`1_000`) and non-ASCII digits, so the model reports failure on some lines the original loads.
- TextMode.RenderEscapes: states its escaping properties for the corrected renderer. The page's own placeholder pipeline is `RenderAsWritten`, and what it does differently is recorded under Findings.
- Transactions.Capitalise: upper-cases ASCII letters only, through `Strings.UpperChar`; `toUpperCase()` also maps other letters and can lengthen a word ('ß' becomes "SS"). So the length claims of Transactions.Capitalise, Transactions.JoinCapitalisedLength and Transactions.FormatTypeShape hold for the model, not for words starting with such letters.
- Kling.Aspect: `ratio in ratioMap` is also true for inherited object keys such as `constructor`, which would make the aspect ratio a function that the JSON request body then leaves out; the model looks up only the table's own ratios.
- PublicAISettings.ObjectEntries: lists the keys in insertion order; `Object.entries` puts integer-like keys first, in ascending order. The order decides which unsupported key is reported first and the order of the saved rows.
- MemoriesRoute.Create: takes the destructured body. A JSON `null` body makes the destructuring throw, which the route's outer catch answers with 500; that case is not modelled.
- TextMode.FormatMarkdownText: the `\s` of the script-pattern and character-name passes is narrowed to ASCII whitespace, as everywhere else (see Strings.IsSpace).
- Static pages, layouts, configuration, middleware and debug endpoints are left out.

## Findings

| source | as written | input that shows it | evidently intended | confidence | as-written member | corrected member |
|---|---|---|---|---|---|---|
| backend/api_server.py:176-181 | the error generator of the local streaming endpoint reads `e`, the name bound by `except Exception as e`; Python 3 deletes that name when the except clause is left (here by the `return`), so iterating the body raises `NameError` after the 200 headers are out: no `event: error` block and no done block reach the client | a local backend whose generation fails (any step raising), requested on the streaming endpoint | bind the message to a local before leaving the clause and send one `event: error` block with it | not executed | ApiServer.LocalFailureAborts | ApiServer.SseLocalTerminal |
| app/api/generate-stream/route.ts:250-277 | the OpenAI branch splits each network read on line breaks by itself, with no carry buffer, so an event line cut across two reads is parsed as two broken halves and dropped | a `data: {...}` line whose first read ends after its first two characters | carry the last partial piece over, as the Ollama branches of the same route do | not executed | GenerateStream.OpenAICutLosesLine | GenerateStream.RelayOpenAI |
| app/api/ai-manager/tasks/route.ts:199-203, 218-225 | the stored task is selected without `started_at`, so the completion rule never sees a start time recorded by an earlier update | a task moved to in_progress by one PUT, then to completed by a later PUT | select `started_at` too, so the completion records the execution time since the stored start | not executed | ManagerTasks.StoredStartIgnored | ManagerTasks.StoredStartTimed |
| app/api/openai/video/route.ts:209-215, 283-289, 478-484, 735-742 | on a missing API key (and on three other failures after the charge) the route refunds the price, then calls the refund a second time to put the new balance in its reply | a valid sora-2 request from a signed-in user when neither the key table nor the environment holds a key | refund the price once and report the balance that refund returned | not executed | OpenAIVideo.MissingKeyRefundsTwice | OpenAIVideo.GenerateCorrected |
| app/video-mode/page.tsx:493-495, 580-587 | the page accepts kling_i2v with only an uploaded image, but the form sends that image only for the other Kling models, so the route receives no frame and falls back to text-to-video | kling_i2v with an uploaded image and no start or end frame | send the uploaded image for kling_i2v as well, so the route uses it as the start frame | not executed | VideoMode.KlingImageDropped | VideoMode.KlingAcceptsPage |
| app/text-mode/page.tsx:82-91 | the marked pieces are written as `__STYLE_START__…__STYLE_END__` placeholders and replaced after escaping by `([^_]+)` patterns, so a marked piece holding an underscore keeps its placeholders on the page instead of its tags | `**snake_case**` | put each marked piece, escaped, straight between its style's tags | not executed | TextMode.SnakeCaseLine | TextMode.StyledAnyText |
| app/text-mode/page.tsx:82-88 | placeholders are replaced in the whole escaped line, and escaping leaves underscores and capitals alone, so placeholder text typed into unmarked text turns into tags | the plain line `__DOUBLE_START__word__DOUBLE_END__` | only the marking stage may produce tags; unmarked text is shown as written | not executed | TextMode.LiteralPlaceholderBold | TextMode.RenderEscapes |
