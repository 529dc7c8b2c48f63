/**
 * The decision logic of the browser client: which files are accepted for
 * upload, how the suggestion text returned by the server is split into
 * list items, the theme switch and the notification icons, and the
 * `currentFile` / `isProcessing` state of the page controller. The DOM is
 * reduced to the few fields these decisions write; the request to the
 * server is a parameter.
 */
module Client {
  import opened Wrappers
  import opened Text

  // ---------------------------------------------------------------------------
  // File acceptance
  // ---------------------------------------------------------------------------

  const AudioExtensions: seq<string> := [".mp3", ".wav", ".m4a", ".flac", ".ogg", ".aac"]

  const AllowedTypes: seq<string> := ["audio/wav", "audio/mp3", "audio/mpeg", "audio/m4a", "audio/flac", "audio/ogg"]

  /** The upload limit, 100 MiB. */
  const MaxFileSize: nat := 100 * 1024 * 1024

  /** `exts.some(ext => s.endsWith(ext))`. */
  function EndsWithAny(s: string, exts: seq<string>): (b: bool)
    ensures b <==> exists k :: 0 <= k < |exts| && EndsWith(s, exts[k])
  {
    if exts == [] then false
    else
      assert forall k :: 1 <= k < |exts| ==> exts[k] == exts[1..][k - 1];
      EndsWith(s, exts[0]) || EndsWithAny(s, exts[1..])
  }

  /** `isAudioFile`: the lower-cased name ends with one of the audio extensions. */
  function IsAudioFile(name: string): (b: bool)
    ensures b <==> exists k :: 0 <= k < |AudioExtensions| && EndsWith(Lower(name), AudioExtensions[k])
  {
    EndsWithAny(Lower(name), AudioExtensions)
  }

  /** The extension rule does not depend on case. */
  lemma IsAudioFileIgnoresCase(name: string)
    ensures IsAudioFile(Lower(name)) == IsAudioFile(name)
  {
    assert Lower(Lower(name)) == Lower(name);
  }

  /** Lower-casing distributes over concatenation. */
  lemma LowerConcat(a: string, b: string)
    ensures Lower(a + b) == Lower(a) + Lower(b)
  {
  }

  /** Any name ending in one of the extensions, in any case, passes the extension rule. */
  lemma ListedExtensionIsAudio(stem: string, ext: string)
    requires Lower(ext) in AudioExtensions
    ensures IsAudioFile(stem + ext)
  {
    var k :| 0 <= k < |AudioExtensions| && AudioExtensions[k] == Lower(ext);
    LowerConcat(stem, ext);
    var l := Lower(stem + ext);
    assert l[|l| - |Lower(ext)|..] == Lower(ext);
    assert EndsWith(l, AudioExtensions[k]);
  }

  /** What the browser reports about a chosen file. */
  datatype AudioFile = AudioFile(name: string, mimeType: string, size: nat)

  /** The outcome of the checks in `processFile`, in the order they are made. */
  datatype Verdict = Accepted | WrongType | TooLarge

  /**
   * The acceptance rule: a file is accepted when its MIME type is on the
   * allow-list or its name has an audio extension, and it is at most
   * 100 MiB. The type is checked first.
   */
  function CheckFile(f: AudioFile): (v: Verdict)
    ensures v == Accepted <==> (f.mimeType in AllowedTypes || IsAudioFile(f.name)) && f.size <= MaxFileSize
    ensures v == WrongType <==> f.mimeType !in AllowedTypes && !IsAudioFile(f.name)
  {
    if f.mimeType !in AllowedTypes && !IsAudioFile(f.name) then WrongType
    else if f.size > MaxFileSize then TooLarge
    else Accepted
  }

  /** A file with an audio extension is never refused for its type, whatever its MIME type. */
  lemma ExtensionSuffices(f: AudioFile)
    requires IsAudioFile(f.name)
    ensures CheckFile(f) != WrongType
    ensures CheckFile(f) == Accepted <==> f.size <= MaxFileSize
  {
  }

  const WrongTypeMessage: string := "Please select a valid audio file (MP3, WAV, M4A, FLAC)"
  const TooLargeMessage: string := "File size must be less than 100MB"

  // ---------------------------------------------------------------------------
  // Suggestion parsing
  // ---------------------------------------------------------------------------

  predicate IsDigit(c: char) {
    '0' <= c <= '9'
  }

  /** A character of the class `[\d\.\*\•\s]`. */
  predicate IsMarkerChar(c: char) {
    IsDigit(c) || c == '.' || c == '*' || c == '\U{2022}' || c in JsSpaceChars
  }

  /** End of the run of digits that starts at `i`. */
  function DigitsEnd(t: string, i: nat): (j: nat)
    requires i <= |t|
    ensures i <= j <= |t|
    ensures forall k :: i <= k < j ==> IsDigit(t[k])
    ensures j < |t| ==> !IsDigit(t[j])
    decreases |t| - i
  {
    if i < |t| && IsDigit(t[i]) then DigitsEnd(t, i + 1) else i
  }

  /** End of the run of marker characters that starts at `i`. */
  function MarkersEnd(t: string, i: nat): (j: nat)
    requires i <= |t|
    ensures i <= j <= |t|
    ensures forall k :: i <= k < j ==> IsMarkerChar(t[k])
    ensures j < |t| ==> !IsMarkerChar(t[j])
    decreases |t| - i
  {
    if i < |t| && IsMarkerChar(t[i]) then MarkersEnd(t, i + 1) else i
  }

  /** `/^\d+\./`: the text starts with one or more digits followed by a full stop. */
  predicate StartsNumbered(t: string): (b: bool)
    ensures b <==> exists d :: 0 < d < |t| && (forall k :: 0 <= k < d ==> IsDigit(t[k])) && t[d] == '.'
  {
    var d := DigitsEnd(t, 0);
    assert forall e :: 0 < e < |t| && (forall k :: 0 <= k < e ==> IsDigit(t[k])) && t[e] == '.' ==> e == d by {
      forall e | 0 < e < |t| && (forall k :: 0 <= k < e ==> IsDigit(t[k])) && t[e] == '.' ensures e == d {
        if d < e { assert false; }
        if e < d { assert false; }
      }
    }
    0 < d < |t| && t[d] == '.'
  }

  /** A line that is not blank once trimmed. */
  predicate NonBlank(line: string) {
    JsTrim(line) != ""
  }

  /** A numbered line, or one holding an asterisk or a bullet anywhere. */
  predicate IsListLine(line: string) {
    StartsNumbered(JsTrim(line)) || '*' in line || '\U{2022}' in line
  }

  /**
   * `line.replace(/^[\d\.\*\•\s]+/, '').trim()`: the line without its
   * longest leading run of digits, full stops, asterisks, bullets and
   * spaces, then trimmed.
   */
  function CleanItem(line: string): (item: string)
    ensures exists m :: (0 <= m <= |line|
      && (forall k :: 0 <= k < m ==> IsMarkerChar(line[k]))
      && (m < |line| ==> !IsMarkerChar(line[m]))
      && item == JsTrim(line[m..]))
  {
    var m := MarkersEnd(line, 0);
    JsTrim(line[m..])
  }

  predicate NonEmpty(s: string) {
    s != ""
  }

  /** The non-blank lines of the text. */
  function SuggestionLines(text: string): seq<string> {
    Filter(Split(text, '\n'), NonBlank)
  }

  /** The list lines among them, cleaned. */
  function CleanedListLines(text: string): seq<string> {
    Map(Filter(SuggestionLines(text), IsListLine), CleanItem)
  }

  /** A line that yields a list item: non-blank, a list line, and not empty once cleaned. */
  predicate YieldsItem(line: string) {
    NonBlank(line) && IsListLine(line) && CleanItem(line) != ""
  }

  /** The items of the lines, taken one line at a time. */
  function ItemsOf(lines: seq<string>): seq<string> {
    if lines == [] then []
    else (if YieldsItem(lines[0]) then [CleanItem(lines[0])] else []) + ItemsOf(lines[1..])
  }

  /**
   * The list items the parser keeps (`split`, `filter`, `filter`, `map`,
   * `filter`): exactly one item per line that yields one, in line order.
   */
  function SuggestionItems(text: string): (items: seq<string>)
    ensures items == ItemsOf(Split(text, '\n'))
  {
    var lines := Split(text, '\n');
    PipelineOnePass(lines, NonBlank, IsListLine, CleanItem, NonEmpty);
    OnePassItems(lines);
    Filter(CleanedListLines(text), NonEmpty)
  }

  /**
   * A cleaned line is empty, or it starts with a character that is neither
   * a marker nor a space and ends with one that is not a space.
   */
  lemma CleanItemShape(line: string)
    ensures var item := CleanItem(line);
      item == [] || (!IsMarkerChar(item[0]) && item[|item| - 1] !in JsSpaceChars)
  {
    var t := line[MarkersEnd(line, 0)..];
    var item := JsTrim(t);
    if item != [] {
      assert t[0] == line[MarkersEnd(line, 0)];
      assert t[0] !in JsSpaceChars;
      assert LeadingRun(JsSpaceChars, t) == 0;
      assert item[0] == t[0];
    }
  }

  /**
   * What survives a filter, a second filter, a map and a last filter: each
   * survivor is the image of an element that passed both filters, and each
   * such image that passes the last filter survives.
   */
  lemma Pipeline<T, U>(xs: seq<T>, p: T -> bool, q: T -> bool, f: T -> U, keep: U -> bool)
    ensures forall y :: y in Filter(Map(Filter(Filter(xs, p), q), f), keep) ==>
      exists x :: x in xs && p(x) && q(x) && f(x) == y
    ensures forall x :: x in xs && p(x) && q(x) && keep(f(x)) ==> f(x) in Filter(Map(Filter(Filter(xs, p), q), f), keep)
  {
    var first := Filter(xs, p);
    var second := Filter(first, q);
    var mapped := Map(second, f);
    forall y | y in Filter(mapped, keep)
      ensures exists x :: x in xs && p(x) && q(x) && f(x) == y
    {
      var j :| 0 <= j < |mapped| && mapped[j] == y;
      assert second[j] in first;
    }
    forall x | x in xs && p(x) && q(x) && keep(f(x))
      ensures f(x) in Filter(mapped, keep)
    {
      assert x in first;
      var j :| 0 <= j < |second| && second[j] == x;
      assert mapped[j] == f(x);
    }
  }

  /** The pipeline below, taken one element at a time. */
  function OnePass<T, U>(xs: seq<T>, p: T -> bool, q: T -> bool, f: T -> U, keep: U -> bool): seq<U> {
    if xs == [] then []
    else (if p(xs[0]) && q(xs[0]) && keep(f(xs[0])) then [f(xs[0])] else []) + OnePass(xs[1..], p, q, f, keep)
  }

  /** The elements passing both `p` and `q`, in one pass. */
  function FilterBoth<T>(xs: seq<T>, p: T -> bool, q: T -> bool): seq<T> {
    if xs == [] then []
    else (if p(xs[0]) && q(xs[0]) then [xs[0]] else []) + FilterBoth(xs[1..], p, q)
  }

  /** The images under `f` that pass `keep`, in one pass. */
  function MapKeep<T, U>(xs: seq<T>, f: T -> U, keep: U -> bool): seq<U> {
    if xs == [] then []
    else (if keep(f(xs[0])) then [f(xs[0])] else []) + MapKeep(xs[1..], f, keep)
  }

  /** Two filters in a row are one filter on both conditions. */
  lemma {:induction false} FilterFilter<T>(xs: seq<T>, p: T -> bool, q: T -> bool)
    ensures Filter(Filter(xs, p), q) == FilterBoth(xs, p, q)
  {
    if xs != [] {
      FilterFilter(xs[1..], p, q);
      var a := Filter(xs[1..], p);
      FilterHead(xs, p);
      if p(xs[0]) {
        FilterHead([xs[0]] + a, q);
        assert ([xs[0]] + a)[1..] == a;
      }
    }
  }

  /** Filtering the images is keeping the images that pass, in one pass. */
  lemma {:induction false} FilterMap<T, U>(xs: seq<T>, f: T -> U, keep: U -> bool)
    ensures Filter(Map(xs, f), keep) == MapKeep(xs, f, keep)
  {
    if xs != [] {
      FilterMap(xs[1..], f, keep);
      var m := Map(xs, f);
      assert m[1..] == Map(xs[1..], f);
      FilterHead(m, keep);
    }
  }

  /** Keeping the images of the filtered elements is the one pass. */
  lemma {:induction false} MapKeepFilterBoth<T, U>(xs: seq<T>, p: T -> bool, q: T -> bool, f: T -> U, keep: U -> bool)
    ensures MapKeep(FilterBoth(xs, p, q), f, keep) == OnePass(xs, p, q, f, keep)
  {
    if xs != [] {
      MapKeepFilterBoth(xs[1..], p, q, f, keep);
      var rest := FilterBoth(xs[1..], p, q);
      if p(xs[0]) && q(xs[0]) {
        assert ([xs[0]] + rest)[1..] == rest;
      } else {
        assert FilterBoth(xs, p, q) == rest;
      }
    }
  }

  /** A filter, a second filter, a map and a last filter are one pass that keeps the images of the elements passing all three. */
  lemma PipelineOnePass<T, U>(xs: seq<T>, p: T -> bool, q: T -> bool, f: T -> U, keep: U -> bool)
    ensures Filter(Map(Filter(Filter(xs, p), q), f), keep) == OnePass(xs, p, q, f, keep)
  {
    FilterFilter(xs, p, q);
    FilterMap(Filter(Filter(xs, p), q), f, keep);
    MapKeepFilterBoth(xs, p, q, f, keep);
  }

  /** The generic one pass, instantiated to the parser, is `ItemsOf`. */
  lemma {:induction false} OnePassItems(lines: seq<string>)
    ensures OnePass(lines, NonBlank, IsListLine, CleanItem, NonEmpty) == ItemsOf(lines)
  {
    if lines != [] {
      OnePassItems(lines[1..]);
    }
  }

  /** When every image that passes the last filter is good, every survivor of the pipeline is good. */
  lemma PipelineKeepsGood<T, U>(xs: seq<T>, p: T -> bool, q: T -> bool, f: T -> U, keep: U -> bool, good: U -> bool)
    requires forall x :: keep(f(x)) ==> good(f(x))
    ensures forall y :: y in Filter(Map(Filter(Filter(xs, p), q), f), keep) ==> good(y)
    ensures |Filter(Map(Filter(Filter(xs, p), q), f), keep)| <= |xs|
  {
    var mapped := Map(Filter(Filter(xs, p), q), f);
    forall y | y in Filter(mapped, keep) ensures good(y) {
      var j :| 0 <= j < |mapped| && mapped[j] == y;
    }
  }

  /** An item as the parser leaves it: non-empty, not starting with a marker or a space, not ending with a space. */
  predicate WellFormedItem(item: string) {
    item != [] && !IsMarkerChar(item[0]) && item[|item| - 1] !in JsSpaceChars
  }

  /** Every item is well formed, and there are at most as many items as lines in the text. */
  lemma SuggestionItemsShape(text: string)
    ensures forall item :: item in SuggestionItems(text) ==> WellFormedItem(item)
    ensures |SuggestionItems(text)| <= |Split(text, '\n')|
  {
    forall line | NonEmpty(CleanItem(line)) ensures WellFormedItem(CleanItem(line)) {
      CleanItemShape(line);
    }
    PipelineKeepsGood(Split(text, '\n'), NonBlank, IsListLine, CleanItem, NonEmpty, WellFormedItem);
  }

  /**
   * The items are exactly the non-empty cleaned forms of the non-blank list
   * lines: each item comes from such a line, each such line gives an item,
   * and the items keep the order of the lines.
   */
  lemma SuggestionItemsFromLines(text: string)
    ensures forall item :: item in SuggestionItems(text) ==>
      exists line :: line in Split(text, '\n') && NonBlank(line) && IsListLine(line) && CleanItem(line) == item
    ensures forall line :: line in Split(text, '\n') && NonBlank(line) && IsListLine(line) && CleanItem(line) != "" ==>
      CleanItem(line) in SuggestionItems(text)
    ensures IsSubsequence(SuggestionItems(text), CleanedListLines(text))
  {
    Pipeline(Split(text, '\n'), NonBlank, IsListLine, CleanItem, NonEmpty);
  }

  /** The `suggestion` field of the response: absent or falsy, a string, or some other value. */
  datatype SuggestionValue = Missing | Str(s: string) | NonString

  /** What the suggestions panel shows: a numbered list, or a paragraph. */
  datatype SuggestionsView = OrderedList(items: seq<string>) | Paragraph(text: string)

  const NoSuggestions: string := "No suggestions available"

  /**
   * `displaySuggestions`. A missing, empty or non-string value shows the
   * placeholder; a string shows its list items when there are any, and
   * otherwise the whole string as one paragraph.
   */
  function DisplaySuggestions(v: SuggestionValue): (view: SuggestionsView)
    ensures !(v.Str? && v.s != "") ==> view == Paragraph(NoSuggestions)
    ensures v.Str? && v.s != "" && SuggestionItems(v.s) != [] ==> view == OrderedList(SuggestionItems(v.s))
    ensures v.Str? && v.s != "" && SuggestionItems(v.s) == [] ==> view == Paragraph(v.s)
    ensures view.OrderedList? ==> view.items != []
  {
    match v
    case Str(s) =>
      if s == "" then Paragraph(NoSuggestions)
      else
        var items := SuggestionItems(s);
        if |items| > 0 then OrderedList(items) else Paragraph(s)
    case _ => Paragraph(NoSuggestions)
  }

  // ---------------------------------------------------------------------------
  // Theme and notifications
  // ---------------------------------------------------------------------------

  /** `toggleTheme`'s new theme: dark after light, light after anything else. */
  function ToggledTheme(theme: string): (r: string)
    ensures r == "light" || r == "dark"
    ensures r == "dark" <==> theme == "light"
  {
    if theme == "light" then "dark" else "light"
  }

  /** Toggling twice restores exactly the two known themes; any other stored value ends up dark. */
  lemma ToggleTwice(theme: string)
    ensures ToggledTheme(ToggledTheme(theme)) == theme <==> theme == "light" || theme == "dark"
    ensures theme != "light" && theme != "dark" ==> ToggledTheme(ToggledTheme(theme)) == "dark"
  {
  }

  /** `updateThemeIcon`: the icon of the theme one would switch to, the moon exactly on the light theme. */
  function ThemeIcon(theme: string): (icon: string)
    ensures icon == "fas fa-moon" <==> theme == "light"
    ensures icon == "fas fa-moon" || icon == "fas fa-sun"
  {
    if theme == "light" then "fas fa-moon" else "fas fa-sun"
  }

  /** After a toggle the icon shows the moon exactly when the page has become light. */
  lemma ThemeIconAfterToggle(theme: string)
    ensures ThemeIcon(ToggledTheme(theme)) == "fas fa-moon" <==> theme != "light"
  {
  }

  /** `getNotificationIcon`: one icon per known kind and `info-circle` for every other kind. */
  function NotificationIcon(kind: string): (icon: string)
    ensures icon == "info-circle" <==> kind != "success" && kind != "error" && kind != "warning"
    ensures icon in {"check-circle", "exclamation-circle", "exclamation-triangle", "info-circle"}
  {
    if kind == "success" then "check-circle"
    else if kind == "error" then "exclamation-circle"
    else if kind == "warning" then "exclamation-triangle"
    else "info-circle"
  }

  /** Different known kinds get different icons. */
  lemma NotificationIconsDistinct(a: string, b: string)
    requires a in {"success", "error", "warning"} && b in {"success", "error", "warning"}
    requires NotificationIcon(a) == NotificationIcon(b)
    ensures a == b
  {
  }

  datatype Notification = Notification(message: string, kind: string)

  // ---------------------------------------------------------------------------
  // Server response
  // ---------------------------------------------------------------------------

  /** A string field of the response, where an absent or empty value counts as missing. */
  function OrDefault(field: Option<string>, default: string): (r: string)
    ensures field.Some? && field.value != "" ==> r == field.value
    ensures !(field.Some? && field.value != "") ==> r == default
  {
    if field.Some? && field.value != "" then field.value else default
  }

  /**
   * The `sentiment` object of a response, of which the page reads only
   * `gemini_analysis`. A server that sends `sentiment` as plain text gives
   * `Some(SentimentData(None))`: the field is missing and the page shows the
   * placeholder.
   */
  datatype SentimentData = SentimentData(geminiAnalysis: Option<string>)

  /** The decoded body of the response. */
  datatype ResponseData = ResponseData(
    summary: Option<string>,
    sentiment: Option<SentimentData>,
    suggestion: SuggestionValue,
    error: Option<string>)

  /** How the request ended: a response with its status and decoded body, or a thrown error with its message. */
  datatype Outcome = Responded(ok: bool, data: ResponseData) | Threw(message: string)

  /** The message of the error that reaches the `catch` block for a failed request. */
  function FailureMessage(outcome: Outcome): (msg: string)
    requires !(outcome.Responded? && outcome.ok)
    ensures outcome.Responded? ==> msg != "" && msg == OrDefault(outcome.data.error, "Processing failed")
    ensures outcome.Threw? ==> msg == outcome.message
  {
    match outcome
    case Responded(_, data) => OrDefault(data.error, "Processing failed")
    case Threw(message) => message
  }

  /** The part of the page the controller writes. */
  datatype Page = Page(
    analyzeDisabled: bool,
    fileInfoVisible: bool,
    fileName: string,
    uploadVisible: bool,
    processingVisible: bool,
    resultsVisible: bool,
    summaryText: string,
    sentimentText: string,
    suggestions: SuggestionsView)

  /**
   * `displayResults`: the summary (or its placeholder), the sentiment text
   * when the response has a sentiment part, the suggestions, and the
   * results section shown.
   */
  function ShowResults(p: Page, data: ResponseData): (q: Page)
    ensures q.summaryText == OrDefault(data.summary, "No summary available") && q.summaryText != ""
    ensures data.sentiment.Some? ==>
      q.sentimentText == OrDefault(data.sentiment.value.geminiAnalysis, "No sentiment analysis available")
    ensures data.sentiment.None? ==> q.sentimentText == p.sentimentText
    ensures q.suggestions == DisplaySuggestions(data.suggestion) && q.resultsVisible
    ensures q.(summaryText := p.summaryText, sentimentText := p.sentimentText,
               suggestions := p.suggestions, resultsVisible := p.resultsVisible) == p
  {
    var sentimentText :=
      if data.sentiment.Some? then OrDefault(data.sentiment.value.geminiAnalysis, "No sentiment analysis available")
      else p.sentimentText;
    p.(summaryText := OrDefault(data.summary, "No summary available"),
       sentimentText := sentimentText,
       suggestions := DisplaySuggestions(data.suggestion),
       resultsVisible := true)
  }

  // ---------------------------------------------------------------------------
  // The page controller
  // ---------------------------------------------------------------------------

  /** The `CallAnalyzer` controller: the chosen file, the request flag, the theme and the page it writes. */
  class CallAnalyzer {
    var currentFile: Option<AudioFile>
    var isProcessing: bool
    var theme: string
    var storedTheme: Option<string>
    var themeIcon: string
    var page: Page
    var notifications: seq<Notification>

    /** A chosen file is always an accepted one, with the analyze button enabled; the icon matches the theme. */
    ghost predicate Valid()
      reads this
    {
      && (currentFile.Some? ==> CheckFile(currentFile.value) == Accepted && !page.analyzeDisabled && page.fileInfoVisible)
      && themeIcon == ThemeIcon(theme)
    }

    /**
     * The constructor and `initializeTheme`. `stored` is the theme saved in
     * local storage; `initial` is the page as its markup starts it.
     */
    constructor (stored: Option<string>, initial: Page)
      ensures Valid()
      ensures currentFile == None && !isProcessing && notifications == []
      ensures theme == OrDefault(stored, "light") && storedTheme == stored
      ensures page == initial
    {
      currentFile := None;
      isProcessing := false;
      theme := OrDefault(stored, "light");
      storedTheme := stored;
      themeIcon := ThemeIcon(OrDefault(stored, "light"));
      page := initial;
      notifications := [];
    }

    /**
     * `processFile`: a rejected file leaves everything as it was except for
     * an error notification; an accepted one becomes the current file, its
     * name is shown and the analyze button is enabled.
     */
    method ProcessFile(f: AudioFile)
      requires Valid()
      modifies this
      ensures Valid()
      ensures isProcessing == old(isProcessing) && theme == old(theme)
      ensures storedTheme == old(storedTheme) && themeIcon == old(themeIcon)
      ensures CheckFile(f) == WrongType ==>
        && notifications == old(notifications) + [Notification(WrongTypeMessage, "error")]
        && currentFile == old(currentFile) && page == old(page)
      ensures CheckFile(f) == TooLarge ==>
        && notifications == old(notifications) + [Notification(TooLargeMessage, "error")]
        && currentFile == old(currentFile) && page == old(page)
      ensures CheckFile(f) == Accepted ==>
        && notifications == old(notifications)
        && currentFile == Some(f)
        && page == old(page).(analyzeDisabled := false, fileInfoVisible := true, fileName := f.name)
    {
      if f.mimeType !in AllowedTypes && !IsAudioFile(f.name) {
        notifications := notifications + [Notification(WrongTypeMessage, "error")];
        return;
      }
      if f.size > MaxFileSize {
        notifications := notifications + [Notification(TooLargeMessage, "error")];
        return;
      }
      currentFile := Some(f);
      page := page.(analyzeDisabled := false, fileInfoVisible := true, fileName := f.name);
    }

    /** `removeFile`: no current file, file information hidden, analyze button disabled. */
    method RemoveFile()
      requires Valid()
      modifies this
      ensures Valid()
      ensures currentFile == None
      ensures page == old(page).(analyzeDisabled := true, fileInfoVisible := false)
      ensures isProcessing == old(isProcessing) && notifications == old(notifications)
      ensures theme == old(theme) && storedTheme == old(storedTheme) && themeIcon == old(themeIcon)
    {
      currentFile := None;
      page := page.(analyzeDisabled := true, fileInfoVisible := false);
    }

    /**
     * `handleFormSubmit` up to the request: nothing happens without a file
     * or while a request is running; otherwise the request starts, the
     * upload and results sections are hidden and the processing section is
     * shown.
     */
    method StartSubmit() returns (started: bool)
      requires Valid()
      modifies this
      ensures Valid()
      ensures started <==> old(currentFile).Some? && !old(isProcessing)
      ensures !started ==>
        && isProcessing == old(isProcessing) && page == old(page) && notifications == old(notifications)
      ensures started ==>
        && isProcessing
        && page == old(page).(uploadVisible := false, processingVisible := true, resultsVisible := false)
        && notifications == old(notifications)
      ensures currentFile == old(currentFile)
      ensures theme == old(theme) && storedTheme == old(storedTheme) && themeIcon == old(themeIcon)
    {
      if currentFile.None? || isProcessing {
        return false;
      }
      isProcessing := true;
      page := page.(uploadVisible := false, processingVisible := true, resultsVisible := false);
      started := true;
    }

    /**
     * `handleFormSubmit` after the request: a successful response is shown;
     * a failed one, or a thrown error, gives an error notification and
     * brings the upload section back. The request flag is cleared on every
     * path.
     */
    method CompleteSubmit(outcome: Outcome)
      requires Valid() && isProcessing
      modifies this
      ensures Valid()
      ensures !isProcessing
      ensures outcome.Responded? && outcome.ok ==>
        && page == ShowResults(old(page), outcome.data)
        && notifications == old(notifications)
      ensures !(outcome.Responded? && outcome.ok) ==>
        && notifications == old(notifications) + [Notification("Error: " + FailureMessage(outcome), "error")]
        && page == old(page).(processingVisible := false, uploadVisible := true)
      ensures currentFile == old(currentFile)
      ensures theme == old(theme) && storedTheme == old(storedTheme) && themeIcon == old(themeIcon)
    {
      if outcome.Responded? && outcome.ok {
        page := ShowResults(page, outcome.data);
      } else {
        notifications := notifications + [Notification("Error: " + FailureMessage(outcome), "error")];
        page := page.(processingVisible := false, uploadVisible := true);
      }
      isProcessing := false;
    }

    /** The delayed step of `showCompletedState`: the processing section gives way to the results. */
    method RevealResults()
      requires Valid()
      modifies this
      ensures Valid()
      ensures page == old(page).(processingVisible := false, resultsVisible := true)
      ensures currentFile == old(currentFile) && isProcessing == old(isProcessing)
      ensures notifications == old(notifications)
      ensures theme == old(theme) && storedTheme == old(storedTheme) && themeIcon == old(themeIcon)
    {
      page := page.(processingVisible := false, resultsVisible := true);
    }

    /**
     * The whole of `handleFormSubmit` for one request whose outcome is
     * `outcome`: a guarded no-op, or a request after which the flag is
     * clear again.
     */
    method HandleFormSubmit(outcome: Outcome) returns (started: bool)
      requires Valid()
      modifies this
      ensures Valid()
      ensures started <==> old(currentFile).Some? && !old(isProcessing)
      ensures !started ==>
        && isProcessing == old(isProcessing) && page == old(page) && notifications == old(notifications)
      ensures started ==> !isProcessing
      ensures !old(isProcessing) ==> !isProcessing
      ensures started && outcome.Responded? && outcome.ok ==>
        && page == ShowResults(old(page).(uploadVisible := false, processingVisible := true, resultsVisible := false),
                               outcome.data)
        && notifications == old(notifications)
      ensures started && !(outcome.Responded? && outcome.ok) ==>
        && page == old(page).(uploadVisible := true, processingVisible := false, resultsVisible := false)
        && notifications == old(notifications) + [Notification("Error: " + FailureMessage(outcome), "error")]
      ensures currentFile == old(currentFile)
      ensures theme == old(theme) && storedTheme == old(storedTheme) && themeIcon == old(themeIcon)
    {
      started := StartSubmit();
      if started {
        CompleteSubmit(outcome);
      }
    }

    /** `toggleTheme`: switch the theme, save it and update the icon. */
    method ToggleTheme()
      requires Valid()
      modifies this
      ensures Valid()
      ensures theme == ToggledTheme(old(theme)) && storedTheme == Some(theme)
      ensures currentFile == old(currentFile) && isProcessing == old(isProcessing)
      ensures page == old(page) && notifications == old(notifications)
    {
      theme := ToggledTheme(theme);
      storedTheme := Some(theme);
      themeIcon := ThemeIcon(theme);
    }
  }
}
