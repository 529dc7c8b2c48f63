/**
 * The bookkeeping around speech-to-text: the table of model sizes, the
 * fallback to "base" for an unknown size, the per-size model cache, and how
 * the recognised segments become one transcript. The recogniser itself, the
 * file system and logging are outside the model: whether the file exists,
 * whether loading a model fails and what the recogniser returns are
 * parameters.
 */
module Transcription {
  import opened Wrappers
  import opened Text

  // ---------------------------------------------------------------------------
  // Model sizes
  // ---------------------------------------------------------------------------

  /** `get_available_models`: the supported sizes with their descriptions. */
  function AvailableModels(): (m: map<string, string>)
    ensures m.Keys == {"tiny", "base", "small", "medium", "large"}
    ensures forall size :: size in m ==> m[size] != ""
  {
    map[
      "tiny" := "Fastest, least accurate (~39 MB)",
      "base" := "Good balance of speed and accuracy (~74 MB)",
      "small" := "Better accuracy, slower (~244 MB)",
      "medium" := "High accuracy, much slower (~769 MB)",
      "large" := "Highest accuracy, slowest (~1550 MB)"
    ]
  }

  /** The size used when the requested one is not in the table. */
  const DefaultSize: string := "base"

  /** Exactly five sizes are supported, the fallback among them. */
  lemma AvailableModelSizes()
    ensures |AvailableModels()| == 5
    ensures DefaultSize in AvailableModels()
  {
    assert |AvailableModels().Keys| == 5;
  }

  /**
   * The size `transcribe_audio` actually loads: the requested size when the
   * table has it, "base" otherwise. The result is always a supported size.
   */
  function ResolveModelSize(size: string): (r: string)
    ensures r in AvailableModels()
    ensures size in AvailableModels() ==> r == size
    ensures size !in AvailableModels() ==> r == DefaultSize
  {
    if size in AvailableModels() then size else DefaultSize
  }

  /** Resolving twice is resolving once, and only supported sizes are left unchanged. */
  lemma ResolveModelSizeIdempotent(size: string)
    ensures ResolveModelSize(ResolveModelSize(size)) == ResolveModelSize(size)
    ensures ResolveModelSize(size) == size <==> size in AvailableModels()
  {
  }

  // ---------------------------------------------------------------------------
  // Model cache
  // ---------------------------------------------------------------------------

  const LoadFailedPrefix: string := "Failed to load Whisper model: "

  /** A loaded recogniser; only its size matters here. */
  class WhisperModel {
    const size: string

    constructor (size: string)
      ensures this.size == size
    {
      this.size := size;
    }
  }

  /**
   * The module-level `_model_cache`: at most one loaded model per size.
   * `loads` records, in order, the sizes loaded since the cache was last
   * cleared; it is a history kept for the proofs and has no counterpart in
   * the program.
   */
  class ModelCache {
    var models: map<string, WhisperModel>
    ghost var loads: seq<string>

    /**
     * Every entry holds a model of its own size, and each cached size was
     * loaded exactly once since the last clear.
     */
    ghost predicate Valid()
      reads this
    {
      && (forall k :: k in models ==> models[k].size == k)
      && (forall k :: k in models <==> k in loads)
      && (forall i, j :: 0 <= i < j < |loads| ==> loads[i] != loads[j])
    }

    constructor ()
      ensures Valid()
      ensures models == map[] && loads == []
    {
      models := map[];
      loads := [];
    }

    /**
     * `_load_model`. `failure` is the message of the exception the
     * recogniser's constructor raises for this size, if it raises. A cached
     * size returns the cached instance and loads nothing; otherwise a new
     * model is built and cached, or the failure is reported and the cache is
     * left as it was.
     */
    method LoadModel(size: string, failure: Option<string>) returns (r: Result<WhisperModel, string>)
      requires Valid()
      modifies this
      ensures Valid()
      ensures size in old(models) ==>
        r == Ok(old(models)[size]) && models == old(models) && loads == old(loads)
      ensures size !in old(models) && failure.Some? ==>
        r == Err(LoadFailedPrefix + failure.value) && models == old(models) && loads == old(loads)
      ensures size !in old(models) && failure.None? ==>
        && r.Ok? && fresh(r.value) && r.value.size == size
        && models == old(models)[size := r.value] && loads == old(loads) + [size]
      ensures r.Ok? ==> r.value.size == size && size in models && models[size] == r.value
    {
      if size !in models {
        match failure {
          case Some(msg) =>
            return Err(LoadFailedPrefix + msg);
          case None =>
            var m := new WhisperModel(size);
            models := models[size := m];
            loads := loads + [size];
        }
      }
      r := Ok(models[size]);
    }

    /** `clear_model_cache`: forget every loaded model. */
    method Clear()
      requires Valid()
      modifies this
      ensures Valid()
      ensures models == map[] && loads == []
    {
      models := map[];
      loads := [];
    }
  }

  // ---------------------------------------------------------------------------
  // Transcript
  // ---------------------------------------------------------------------------

  /** What is returned when the recogniser produced nothing but space. */
  const NoSpeech: string := "No speech detected in the audio file."

  /** Each segment's text stripped, joined with single spaces, and the whole stripped again. */
  function JoinedText(segments: seq<string>): string {
    PyStrip(Join(Map(segments, PyStrip), " "))
  }

  /** A segment that holds only whitespace, or nothing. */
  predicate Blank(segment: string) {
    AllSpace(PySpaceChars, segment)
  }

  /**
   * The transcript for the recognised segments: the joined text, or the
   * placeholder when it is empty. Either way it is non-empty and has no
   * whitespace at either end.
   */
  function TranscriptOf(segments: seq<string>): (t: string)
    ensures t == NoSpeech || t == JoinedText(segments)
    ensures t != "" && t[0] !in PySpaceChars && t[|t| - 1] !in PySpaceChars
  {
    if JoinedText(segments) == "" then
      assert NoSpeech[0] == 'N' && NoSpeech[|NoSpeech| - 1] == '.';
      NoSpeech
    else JoinedText(segments)
  }

  /** The joined text is empty exactly when every segment is blank. */
  lemma JoinedTextEmptyIffBlank(segments: seq<string>)
    ensures JoinedText(segments) == "" <==> forall i :: 0 <= i < |segments| ==> Blank(segments[i])
  {
    var parts := Map(segments, PyStrip);
    assert AllSpace(PySpaceChars, " ");
    JoinAllSpace(PySpaceChars, parts, " ");
    forall i | 0 <= i < |segments| ensures AllSpace(PySpaceChars, parts[i]) <==> Blank(segments[i]) {
      var p := parts[i];
      assert p == Strip(PySpaceChars, segments[i]);
      assert p != [] ==> p[0] !in PySpaceChars;
    }
  }

  /**
   * The transcript is never empty: it is the placeholder when every segment
   * is blank, and otherwise the joined text (which `PyStrip` leaves without
   * whitespace at either end).
   */
  lemma TranscriptShape(segments: seq<string>)
    ensures TranscriptOf(segments) != ""
    ensures (forall i :: 0 <= i < |segments| ==> Blank(segments[i])) ==> TranscriptOf(segments) == NoSpeech
    ensures !(forall i :: 0 <= i < |segments| ==> Blank(segments[i])) ==> TranscriptOf(segments) == JoinedText(segments)
  {
    JoinedTextEmptyIffBlank(segments);
    assert NoSpeech[0] == 'N';
  }

  /** The segment loop of `transcribe_audio` followed by the join and the final strip. */
  method CombineSegments(segments: seq<string>) returns (transcript: string)
    ensures transcript == JoinedText(segments)
  {
    var parts: seq<string> := [];
    for i := 0 to |segments|
      invariant |parts| == i
      invariant forall k :: 0 <= k < i ==> parts[k] == PyStrip(segments[k])
    {
      parts := parts + [PyStrip(segments[i])];
    }
    assert parts == Map(segments, PyStrip);
    transcript := PyStrip(Join(parts, " "));
  }

  /** Why a transcription failed: the missing file is reported as is, anything else is wrapped. */
  datatype TranscriptionError =
    | FileNotFound(message: string)
    | TranscriptionFailed(message: string)

  /**
   * `transcribe_audio`. `fileExists` says whether the path exists,
   * `loadFailure` what loading the model raises if it is not cached, and
   * `recognised` the segment texts the recogniser yields, or the message of
   * the exception it raises. A missing file is reported before the cache is
   * touched; otherwise the size is resolved and the rest is `TranscribeWith`.
   */
  method Transcribe(
    cache: ModelCache, filepath: string, modelSize: string, fileExists: bool,
    loadFailure: Option<string>, recognised: Result<seq<string>, string>)
    returns (r: Result<string, TranscriptionError>)
    requires cache.Valid()
    modifies cache
    ensures cache.Valid()
    ensures !fileExists ==>
      r == Err(FileNotFound("Audio file not found: " + filepath))
      && cache.models == old(cache.models) && cache.loads == old(cache.loads)
    ensures fileExists ==> TranscribedWith(old(cache.models), old(cache.loads), cache.models, cache.loads,
                                           ResolveModelSize(modelSize), loadFailure, recognised, r)
  {
    if !fileExists {
      return Err(FileNotFound("Audio file not found: " + filepath));
    }
    r := TranscribeWith(cache, ResolveModelSize(modelSize), loadFailure, recognised);
  }

  /**
   * What one transcription with a resolved size does to the cache and what
   * it returns: a cached size leaves the cache alone; an uncached size is
   * loaded once, or, if loading fails, the failure is reported wrapped and
   * the cache is left alone; with a model at hand the result is the
   * transcript of the recognised segments, or the recogniser's failure
   * wrapped.
   */
  ghost predicate TranscribedWith(
    models0: map<string, WhisperModel>, loads0: seq<string>,
    models1: map<string, WhisperModel>, loads1: seq<string>,
    size: string, loadFailure: Option<string>, recognised: Result<seq<string>, string>,
    r: Result<string, TranscriptionError>)
  {
    && (size in models0 ==> models1 == models0 && loads1 == loads0)
    && (size !in models0 && loadFailure.Some? ==>
          && r == Err(TranscriptionFailed(TranscriptionFailedPrefix + LoadFailedPrefix + loadFailure.value))
          && models1 == models0 && loads1 == loads0)
    && (size !in models0 && loadFailure.None? ==>
          && size in models1 && models1[size].size == size
          && models1.Keys == models0.Keys + {size}
          && (forall k :: k in models0 ==> models1[k] == models0[k])
          && loads1 == loads0 + [size])
    && (size in models0 || loadFailure.None? ==>
          r == (match recognised
                case Ok(segments) => Ok(TranscriptOf(segments))
                case Err(msg) => Err(TranscriptionFailed(TranscriptionFailedPrefix + msg))))
  }

  const TranscriptionFailedPrefix: string := "Transcription failed: "

  /** Everything `transcribe_audio` does after the file check, for the size it resolved. */
  method TranscribeWith(
    cache: ModelCache, size: string, loadFailure: Option<string>, recognised: Result<seq<string>, string>)
    returns (r: Result<string, TranscriptionError>)
    requires cache.Valid()
    modifies cache
    ensures cache.Valid()
    ensures TranscribedWith(old(cache.models), old(cache.loads), cache.models, cache.loads,
                            size, loadFailure, recognised, r)
  {
    var model := cache.LoadModel(size, loadFailure);
    if model.Err? {
      assert TranscriptionFailedPrefix + model.error == TranscriptionFailedPrefix + LoadFailedPrefix + loadFailure.value;
      return Err(TranscriptionFailed(TranscriptionFailedPrefix + model.error));
    }
    match recognised {
      case Err(msg) =>
        r := Err(TranscriptionFailed(TranscriptionFailedPrefix + msg));
      case Ok(segments) =>
        var transcript := CombineSegments(segments);
        if transcript == "" {
          r := Ok(NoSpeech);
        } else {
          r := Ok(transcript);
        }
    }
  }
}
