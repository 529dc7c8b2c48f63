# Call analyser core, modelled in Dafny

The call analyser takes an uploaded recording of a call. It transcribes the recording with Whisper, analyses the sentiment of the transcript, and shows a summary, a sentiment analysis and suggestions in the browser. The repository carries a rule-based VADER analyser (`src/sentiment_analyzer.py`), which is modelled here. The server entry point among its files (`src/app.py` through `src/main.py`) does not call it, however: it sends Gemini's plain-text analysis as `sentiment`. The page reads `sentiment.gemini_analysis`, so with that server it finds no such field and shows "No sentiment analysis available"; the model expresses that response as `Some(SentimentData(None))`. This project models the three self-contained parts of that system and proves properties of them:

- **Sentiment rules** (`sentiment.dfy`, module `Sentiment`):
  - the five-band label of the VADER compound score;
  - the three-level confidence;
  - the emotional-indicator extractor (three pattern loops with `break`, over the lower-cased text);
  - the summary sentence;
  - the report of `analyze_sentiment`, including its fallback when scoring raises.
- **Transcription bookkeeping** (`transcription.dfy`, module `Transcription`):
  - the table of model sizes and the fallback to `"base"`;
  - the process-wide model cache, a class over a `map` with a load operation that can fail and a clear operation;
  - the loop that strips and joins the recognised segments;
  - the placeholder for silence;
  - the error paths of `transcribe_audio`.
- **Browser client** (`client.dfy`, module `Client`):
  - the audio-extension rule and the acceptance rule for uploads (MIME allow-list or extension, and a 100 MiB cap);
  - the line parser for the suggestion text;
  - the theme toggle and the notification icons;
  - the `CallAnalyzer` controller as a class whose fields are the chosen file, the request flag, the theme, the stored theme, the icon, the part of the page it writes, and the notifications it raised.

The string operations shared by both languages live in `text.dfy` (module `Text`): Python's `str.strip()` and JavaScript's `trim()` (each with its own whitespace set), ASCII lower-casing, join, split on one character, filter and map. `wrappers.dfy` holds `Option` and `Result`.

Everything outside the model enters as a parameter:

- the VADER scores, or the exception VADER raised;
- whether the audio file exists;
- whether loading a Whisper model fails;
- the segments the recogniser returns, or its failure;
- how the `fetch` in `handleFormSubmit` ended;
- the theme stored in `localStorage`.

## Model

| member | source | states |
|---|---|---|
| Sentiment.InterpretCompoundScore | src/sentiment_analyzer.py:59-70 | the label is very_positive iff c >= 0.5, positive iff 0.1 <= c < 0.5, neutral iff -0.1 < c < 0.1, negative iff -0.5 < c <= -0.1, very_negative iff c <= -0.5 (so -0.1 is negative and -0.5 very negative) |
| Sentiment.LabelMonotone | src/sentiment_analyzer.py:59-70 | a higher score never gives a lower label on the order very_negative < negative < neutral < positive < very_positive |
| Sentiment.CalculateConfidence | src/sentiment_analyzer.py:115-124 | high iff abs(c) >= 0.5, medium iff 0.1 <= abs(c) < 0.5, low iff abs(c) < 0.1, each written out on both signs |
| Sentiment.ConfidenceName | src/sentiment_analyzer.py:117-124 | the report's confidence string is one of "high", "medium" and "low" |
| Sentiment.ConfidenceNameInjective | src/sentiment_analyzer.py:117-124 | the three levels have three different strings, so the string determines the level |
| Sentiment.ConfidenceString | src/sentiment_analyzer.py:115-124 | the string is "high" iff abs(c) >= 0.5, "medium" iff 0.1 <= abs(c) < 0.5, and "low" iff abs(c) < 0.1 |
| Sentiment.ConfidenceSymmetric | src/sentiment_analyzer.py:115-124 | confidence(c) == confidence(-c) |
| Sentiment.ConfidenceAgreesWithLabel | src/sentiment_analyzer.py:115-124 | the confidence is determined by the label: very_* gives high, positive and negative give medium, neutral gives low |
| Sentiment.AnyPatternMatches | src/sentiment_analyzer.py:98-101 | one `for pattern ...: if re.search: break` loop reports true iff some pattern of the list matches the text |
| Sentiment.DetectCategory | src/sentiment_analyzer.py:98-111 | the loop for one category reports true iff that category is detected, i.e. one of its patterns matches |
| Sentiment.StandaloneWordMatches | src/sentiment_analyzer.py:77-99 | `re.search` of a word-bounded alternation finds any listed word that stands between non-word characters or the ends of the text |
| Sentiment.WordInsideWordNotMatched | src/sentiment_analyzer.py:84-104 | for example, "no" is not found in "know": the word boundaries keep that word from matching inside a longer one |
| Sentiment.ExtractEmotionalIndicators | src/sentiment_analyzer.py:72-113 | the list the three loops build equals the categories, in the fixed order, that are detected in the lower-cased text |
| Sentiment.IndicatorsInOrder | src/sentiment_analyzer.py:98-113 | the indicator list is positive_language if detected, then negative_language if detected, then uncertainty if detected |
| Sentiment.IndicatorsWellFormed | src/sentiment_analyzer.py:74-113 | the indicators are a subsequence of [positive_language, negative_language, uncertainty], have at most three entries, have no duplicates, and hold a tag iff one of its patterns matches |
| Sentiment.QuestionMarkMeansUncertainty | src/sentiment_analyzer.py:91-111 | a `?` anywhere in the text puts uncertainty in the indicators |
| Sentiment.IndicatorsIgnoreCase | src/sentiment_analyzer.py:96 | because the text is lower-cased first, lower-casing it beforehand changes nothing |
| Sentiment.IndicatorSuffix | src/sentiment_analyzer.py:145-148 | the indicator suffix is empty iff the indicator list is empty |
| Sentiment.GenerateSentimentSummary | src/sentiment_analyzer.py:126-150 | the summary is the description and score part followed by the indicator suffix, and it is just the description and score part iff there are no indicators |
| Sentiment.Description | src/sentiment_analyzer.py:132-140 | the lookup gives "Mixed sentiment detected" exactly for strings that are not one of the five label names, and never an empty description |
| Sentiment.LabelsHaveDescriptions | src/sentiment_analyzer.py:132-140 | no label the analyser produces falls back to "Mixed sentiment detected" |
| Sentiment.IndicatorSuffixInjective | src/sentiment_analyzer.py:145-148 | different indicator lists never give the same suffix (the ", "-joined names can be decoded) |
| Sentiment.SummaryDeterminesIndicators | src/sentiment_analyzer.py:126-150 | for a fixed label and score, the summary determines the indicator list |
| Sentiment.AnalyzeSentiment | src/sentiment_analyzer.py:14-57 | on success the report carries the scores, the banded label, the indicators of the lower-cased text and the summary; when scoring raises, it is the fallback with the error text, scores 0/0/1/0, neutral and low; on both paths the confidence agrees with the label |
| Transcription.AvailableModels | src/whisper_module.py:11-19 | the table's sizes are exactly tiny, base, small, medium and large, each with a non-empty description |
| Transcription.AvailableModelSizes | src/whisper_module.py:11-19 | there are exactly five sizes, and "base" is one of them |
| Transcription.ResolveModelSize | src/whisper_module.py:44-47 | the resolved size is always supported: a supported size is kept and any other becomes "base" |
| Transcription.ResolveModelSizeIdempotent | src/whisper_module.py:44-47 | resolving twice is resolving once, and a size is left unchanged iff it is supported |
| Transcription.ModelCache.constructor | src/whisper_module.py:9 | the cache starts empty, with no load recorded |
| Transcription.ModelCache.LoadModel | src/whisper_module.py:92-105 | a cached size returns the same instance and changes nothing; an uncached size whose loader fails returns the wrapped failure and changes nothing; otherwise a fresh model of that size is added, other entries are kept, and the load is recorded; each size is loaded at most once between clears |
| Transcription.ModelCache.Clear | src/whisper_module.py:107-111 | the cache is empty afterwards |
| Transcription.CombineSegments | src/whisper_module.py:62-66 | the loop's transcript is the stripped segments, in order, joined by single spaces and stripped again |
| Transcription.JoinedTextEmptyIffBlank | src/whisper_module.py:62-68 | the joined transcript is empty iff every segment is whitespace only |
| Transcription.TranscriptOf | src/whisper_module.py:66-70 | the transcript is the placeholder or the joined text; either way it is non-empty and has no whitespace at either end |
| Transcription.TranscriptShape | src/whisper_module.py:62-70 | the transcript is never empty: it is the placeholder when every segment is blank, and the joined text otherwise |
| Transcription.Transcribe | src/whisper_module.py:36-80 | a missing file is reported as not found before the cache is touched; otherwise the size is resolved, a load failure is reported with both prefixes and leaves the cache alone, and the result is the transcript or the recogniser's failure with the "Transcription failed: " prefix |
| Transcription.TranscribeWith | src/whisper_module.py:49-80 | after the file check, the cache changes only by loading the resolved size once, and the result is as described for Transcribe |
| Text.Strip | src/whisper_module.py:64-66 | the stripped text is the infix of the input after its leading whitespace, followed only by whitespace; it neither starts nor ends with whitespace; it is empty iff the input is all whitespace |
| Text.StripIdempotent | src/whisper_module.py:64-66 | stripping an already stripped text changes nothing |
| Text.PyStrip | src/whisper_module.py:64-66 | Python's `strip()`: no `isspace` character is left at either end, and the result is empty iff the input is all whitespace |
| Text.JsTrim | web/scripts/app.js:387-390 | JavaScript's `trim()`: no WhiteSpace or LineTerminator character is left at either end, and the result is empty iff the input is all such characters |
| Text.Lower | src/sentiment_analyzer.py:96 | lower-casing keeps the length, leaves no ASCII capital and changes no other character |
| Text.Join | src/whisper_module.py:66 | the join of no pieces is empty, and the join of a non-empty list starts with its first piece; Join undoes Split (Split's round trip), SplitJoin shows Split undoes Join for a non-empty list, and JoinInjective shows equal joins of non-empty pieces without the separator come from equal lists |
| Text.JoinAllSpace | src/whisper_module.py:66 | with a whitespace separator, the join is all whitespace iff every piece is |
| Text.SplitJoin | web/scripts/app.js:387 | a non-empty list of pieces without the delimiter, joined with it, splits back into exactly those pieces (the empty list joins to "", which splits into [""]) |
| Text.JoinInjective | src/sentiment_analyzer.py:147 | with non-empty pieces that lack the separator's first character, equal joins come from equal lists |
| Text.Split | web/scripts/app.js:387 | splitting on a character gives at least one piece, none containing it, and joining them with it gives the text back |
| Text.Filter | web/scripts/app.js:387-391 | every kept element passes and comes from the input, every passing element is kept, the result is a subsequence of the input and no longer than it |
| Text.FilterMultiplicity | web/scripts/app.js:387-391 | each passing element is kept exactly as often as it occurs in the input, and no other element is kept |
| Text.Map | src/whisper_module.py:62-64 | the result has the input's length and holds the image of each element at its position |
| Client.IsAudioFile | web/scripts/app.js:177-180 | true iff the lower-cased name ends with one of .mp3, .wav, .m4a, .flac, .ogg, .aac |
| Client.IsAudioFileIgnoresCase | web/scripts/app.js:177-180 | the extension rule gives the same answer for the name and its lower-cased form |
| Client.ListedExtensionIsAudio | web/scripts/app.js:177-180 | any name ending in a listed extension, in any letter case, passes |
| Client.CheckFile | web/scripts/app.js:157-170 | a file is accepted iff (its MIME type is in the six-entry allow-list or its name has an audio extension) and its size is at most 100 * 1024 * 1024; the type is refused iff neither holds |
| Client.ExtensionSuffices | web/scripts/app.js:157-170 | a file with an audio extension is never refused for its type, and is accepted iff it is within the size cap |
| Client.StartsNumbered | web/scripts/app.js:389 | `/^\d+\./` holds iff the text starts with one or more digits followed by a full stop |
| Client.CleanItem | web/scripts/app.js:390 | the cleaned line is the rest of the line after its longest leading run of digits, full stops, asterisks, bullets and spaces, trimmed |
| Client.CleanItemShape | web/scripts/app.js:390 | a cleaned line is empty, or starts with a character that is neither a digit, `.`, `*`, bullet nor space, and ends with a non-space |
| Client.PipelineOnePass | web/scripts/app.js:387-391 | a filter, a second filter, a map and a last filter equal one pass that keeps the image of each element passing all three, once per element and in order |
| Client.SuggestionItems | web/scripts/app.js:387-391 | the parser's items are exactly one cleaned item per line that is non-blank, numbered or holding `*` or a bullet, and non-empty once cleaned, in line order (`ItemsOf`) |
| Client.SuggestionItemsShape | web/scripts/app.js:387-391 | every parsed item is non-empty and cleaned at both ends, and there are no more items than lines |
| Client.SuggestionItemsFromLines | web/scripts/app.js:387-391 | each item is the cleaned form of a non-blank line that is numbered or holds `*` or a bullet; each such line with a non-empty cleaned form gives an item; the items keep the order of the lines |
| Client.DisplaySuggestions | web/scripts/app.js:379-403 | a missing, empty or non-string value shows "No suggestions available"; a string shows its parsed items as a list when there are any, and otherwise the whole string as one paragraph |
| Client.ToggledTheme | web/scripts/app.js:485-486 | the new theme is light or dark, and dark iff the old one was light |
| Client.ToggleTwice | web/scripts/app.js:485-490 | toggling twice restores the theme iff it was light or dark; any other stored value ends up dark |
| Client.ThemeIcon | web/scripts/app.js:492-495 | the icon is the moon iff the theme is light, and the sun otherwise |
| Client.ThemeIconAfterToggle | web/scripts/app.js:492-495 | after a toggle the icon is the moon iff the page has become light |
| Client.NotificationIcon | web/scripts/app.js:561-568 | the icon is total, one of four, and info-circle iff the kind is not success, error or warning |
| Client.NotificationIconsDistinct | web/scripts/app.js:561-568 | the three known kinds get three different icons |
| Client.OrDefault | web/scripts/app.js:308 | `value || default` on a string field: the value when present and non-empty, the default otherwise |
| Client.FailureMessage | web/scripts/app.js:224-234 | a failed response's message is its `error` field or "Processing failed", never empty; a thrown error keeps its own message |
| Client.ShowResults | web/scripts/app.js:306-328 | the summary or its placeholder, the Gemini text or its placeholder when a sentiment part is present, and the displayed suggestions are written and the results shown; nothing else on the page changes |
| Client.CallAnalyzer.constructor | web/scripts/app.js:2-11 | no file, not processing, theme is the stored one or light, and the icon matches it |
| Client.CallAnalyzer.ProcessFile | web/scripts/app.js:157-175 | a refused file leaves the file and the page unchanged and adds the matching error notification; an accepted file becomes the current file, its name is shown and the analyze button enabled |
| Client.CallAnalyzer.RemoveFile | web/scripts/app.js:197-202 | no current file, the file information hidden, the analyze button disabled, nothing else changed |
| Client.CallAnalyzer.StartSubmit | web/scripts/app.js:204-213 | nothing happens without a file or while a request runs; otherwise the flag is set and the processing section replaces the upload and results sections |
| Client.CallAnalyzer.CompleteSubmit | web/scripts/app.js:215-238 | a successful response is displayed; a failed or thrown one adds "Error: " and its message as a notification and brings the upload section back; the flag is cleared on every path |
| Client.CallAnalyzer.RevealResults | web/scripts/app.js:294-296 | the delayed step hides the processing section and shows the results |
| Client.CallAnalyzer.HandleFormSubmit | web/scripts/app.js:204-239 | a guarded no-op without a file or while processing; otherwise the request runs and the flag is false afterwards on every path, with the page and notifications as above |
| Client.CallAnalyzer.ToggleTheme | web/scripts/app.js:485-495 | the theme is toggled, saved to storage, and the icon updated; nothing else changes |

## Left out

- VADER's scoring and Whisper's recogniser are not modelled; their results and failures are parameters.
- Sentiment.AnalyzeSentiment: does not model `round(..., 3)` on the four scores, because rounding a binary float has no exact counterpart on `real`. The report carries the scores as given.
- Sentiment.AnalyzeSentiment: the label and the confidence are computed from the unrounded compound score while the report shows it rounded, so a compound of 0.0996 is reported as 0.1 yet labelled neutral. The model keeps the unrounded score throughout.
- Sentiment.AnalyzeSentiment: only a failure of the scorer leads to the fallback; the model has no other way for the `try` block to raise.
- Sentiment.GenerateSentimentSummary: the compound score rendered with `:.3f` is an opaque string parameter, because float formatting is out of scope.
- Sentiment.ExtractEmotionalIndicators: lower-casing and the `\w` class behind `\b` are modelled on ASCII only. Python applies both to all of Unicode.
- Client.IsAudioFile: `toLowerCase()` is modelled on ASCII letters only.
- Transcription.Transcribe: a `FileNotFoundError` raised by the recogniser itself (by `model.transcribe` or while its segments are read) is re-raised unwrapped by the source. The model does not tell it apart from other recogniser failures and wraps it as a transcription failure. In both the source and the model, a failure of the loader is wrapped twice.
- Transcription.ModelCache: the module-level dictionary is a `ModelCache` object passed explicitly, because the model has no global mutable state.
- Transcription.ModelCache.LoadModel: calls are modelled as sequential. The source checks the cache and then inserts without a lock, so two requests served at the same time by a threaded server can both miss the cache and load the same size twice; "at most once between clears" holds only for sequential calls.
- Transcription.ModelCache.loads: a history kept only for the proofs; the program has no such field.
- The device and compute options, beam size, language and voice-activity filter given to Whisper are not modelled, because they only affect the recogniser.
- Logging on every path is not modelled.
- `formatFileSize` is not modelled, because it uses floating-point logarithms. `displaySentimentScores` and its score bars, animations and `toFixed` are not modelled either.
- The DOM is reduced to the `Page` fields the controller writes. The file size text, step markers, status text, `fileInput.value`, scrolling and CSS classes are not modelled.
- The progress simulation of `simulateProcessingSteps` is not modelled, because it is timer-driven display only.
- The one-second timer of `showCompletedState` is `RevealResults`, a method the environment may call at any time. It can therefore also run while a later request is processing, as in the browser.
- Client.CallAnalyzer.HandleFormSubmit: runs the request as one step. The await between `StartSubmit` and `CompleteSubmit` is modelled by calling those two methods separately, with other methods able to run in between.
- Client.ShowResults: an exception thrown inside `displayResults` (a body that is not an object, say) is not modelled.
- Client.DisplaySuggestions: `innerHTML` markup is not modelled, and the view is the item list or the paragraph text. Without escaping, item text is interpreted as HTML in the browser.
- `showNotification` is not modelled beyond recording each notification's message and kind; its DOM element, icon and five-second removal are left out.
- Keyboard shortcuts, downloads, `resetAnalysis`, drag-and-drop wiring, the sentiment-details toggle and `localStorage` as a device are not modelled. The stored theme is a field.
- The initial page comes from the HTML markup, which is not part of this model, and is a constructor parameter.
- The Gemini module, the Flask routes, the command-line entry points and the audio generator are not part of this model.
