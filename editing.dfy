/**
 * The editor (video_editor.py): fitting the background to the narration's
 * length, the name of the finished video, and what each entry point
 * returns.  Clip loading, resizing and writing are inputs.
 */
module Editing {
  import opened Outcomes
  import opened PyStrings
  import opened Settings

  // ---------------------------------------------------------------- fitting the background

  /** A clip length in seconds; the media library never reports a negative one. */
  type Seconds = r: real | 0.0 <= r

  /** How the background is fitted: cut down, or looped `loops` times and then cut. */
  datatype Fit = Trimmed | Looped(loops: nat)

  /** Why fitting raises: `audio_duration / background_clip.duration` with a background of length 0. */
  datatype FitError = EmptyBackground

  /**
   * The fitting of `create_video_with_subtitles` and `create_video`: a
   * background longer than the audio is cut to `[0, audio)`; otherwise it
   * is looped `int(audio / background) + 1` times before the cut.
   */
  function FitBackground(background: Seconds, audio: Seconds): Result<Fit, FitError>
  {
    if background > audio then Ok(Trimmed)
    else if background == 0.0 then Err(EmptyBackground)
    else Ok(Looped((audio / background).Floor + 1))
  }

  /** How long the background is once fitted: the loops laid end to end, then cut at the audio's end. */
  function FittedLength(fit: Fit, background: real, audio: real): real {
    match fit
    case Trimmed => if background < audio then background else audio
    case Looped(loops) => var looped := loops as real * background; if looped < audio then looped else audio
  }

  /**
   * A background is trimmed exactly when it is longer than the audio.
   * Otherwise the loops are one more than fit whole into the audio, so they
   * cover more than the audio. Either way the fitted background lasts
   * exactly as long as the audio; only a background of length 0 raises.
   */
  lemma {:induction false} FitMatchesAudio(background: Seconds, audio: Seconds)
    ensures FitBackground(background, audio).Err? <==> background == 0.0
    ensures var f := FitBackground(background, audio);
            f.Ok? ==> (f.value.Trimmed? <==> background > audio) && FittedLength(f.value, background, audio) == audio
    ensures var f := FitBackground(background, audio);
            f.Ok? && f.value.Looped? ==>
              f.value.loops as real * background > audio && (f.value.loops - 1) as real * background <= audio
  {
    if background > 0.0 && background <= audio {
      var q := audio / background;
      var loops := q.Floor + 1;
      assert q.Floor as real <= q < loops as real;
      assert q * background == audio;
      LoopsCover(q, loops, background);
    }
  }

  lemma {:induction false} LoopsCover(q: real, loops: int, background: real)
    requires background > 0.0 && (loops - 1) as real <= q < loops as real
    ensures loops as real * background > q * background
    ensures (loops - 1) as real * background <= q * background
  {
  }

  /** 42 seconds of audio over a 20-second background: 3 loops, where a rounding-up count would also give 3. */
  lemma {:induction false} FortyTwoOverTwenty()
    ensures FitBackground(20.0, 42.0) == Ok(Looped(3))
  {
    assert (42.0 / 20.0).Floor == 2;
  }

  /** Equal lengths loop twice: the count is floor plus one, not the ceiling, which would be 1. */
  lemma {:induction false} EqualLengthsLoopTwice(d: Seconds)
    requires d > 0.0
    ensures FitBackground(d, d) == Ok(Looped(2))
  {
    assert d / d == 1.0;
  }

  // ---------------------------------------------------------------- create_video_with_subtitles

  const Mp4: string := ".mp4"

  /** `{video_id}_{timestamp}.mp4` under the output directory. */
  function OutputPath(videoId: string, stamp: string): string {
    PathJoin(OutputDir, videoId + "_" + stamp + Mp4)
  }

  /** The finished video lies directly in the output directory, named by the video id and the time stamp. */
  lemma {:induction false} OutputPathShape(videoId: string, stamp: string)
    requires videoId != [] && videoId[0] != '/'
    ensures OutputPath(videoId, stamp) == OutputDir + "/" + videoId + "_" + stamp + Mp4
  {
    var name := videoId + "_" + stamp + Mp4;
    assert name[0] == videoId[0];
  }

  /** The clip handed to the subtitle step: fitted to the audio, at the Shorts frame size, with the audio set. */
  datatype Clip = Clip(duration: real, width: nat, height: nat, audio: real)

  /** A call of the subtitle step: the clip, the story text and the output path. */
  datatype SubtitleCall = SubtitleCall(clip: Clip, text: string, outputPath: string)

  /**
   * The lengths of the loaded clips (absent when loading raises), the
   * subtitle step's result (absent when it raises, otherwise its
   * truthiness) and the time stamp.
   */
  datatype EditInputs = EditInputs(audio: Option<Seconds>, background: Option<Seconds>, subtitled: Option<bool>, stamp: string)

  predicate Loaded(e: EditInputs) {
    e.audio.Some? && e.background.Some?
  }

  /**
   * `create_video_with_subtitles`: the call made to the subtitle step, if
   * one is made, and the path returned.
   */
  function CreateVideoWithSubtitles(storyText: string, videoId: string, e: EditInputs)
    : (Option<SubtitleCall>, Option<string>)
  {
    if !Loaded(e) then (None, None)
    else
      var audio := e.audio.value;
      var background := e.background.value;
      match FitBackground(background, audio)
      case Err(_) => (None, None)
      case Ok(fit) =>
        var clip := Clip(FittedLength(fit, background, audio), VideoWidth, VideoHeight, audio);
        var path := OutputPath(videoId, e.stamp);
        (Some(SubtitleCall(clip, storyText, path)), if e.subtitled == Some(true) then Some(path) else None)
  }

  /**
   * The subtitle step gets a clip exactly as long as the audio, at the
   * Shorts frame size, with the story text and the output path; the path
   * is returned exactly when the step's result is truthy.
   */
  lemma {:induction false} EditOutcome(storyText: string, videoId: string, e: EditInputs)
    ensures var (call, r) := CreateVideoWithSubtitles(storyText, videoId, e);
            call.Some? <==> Loaded(e) && e.background.value > 0.0
    ensures var (call, r) := CreateVideoWithSubtitles(storyText, videoId, e);
            call.Some? ==>
              call.value.clip == Clip(e.audio.value, VideoWidth, VideoHeight, e.audio.value)
              && call.value.text == storyText && call.value.outputPath == OutputPath(videoId, e.stamp)
    ensures var (call, r) := CreateVideoWithSubtitles(storyText, videoId, e);
            r.Some? <==> call.Some? && e.subtitled == Some(true)
    ensures var (call, r) := CreateVideoWithSubtitles(storyText, videoId, e);
            r.Some? ==> r.value == OutputPath(videoId, e.stamp)
  {
    if Loaded(e) {
      FitMatchesAudio(e.background.value, e.audio.value);
    }
  }

  // ---------------------------------------------------------------- create_video, get_video_duration

  /**
   * `create_video`: with both clips loaded, the background fitted and the
   * file written (`writes`), the given path is returned, and the clip
   * written.
   */
  function CreateVideo(audio: Option<Seconds>, background: Option<Seconds>, writes: bool, outputPath: string)
    : (Option<Clip>, Option<string>)
  {
    if audio.None? || background.None? then (None, None)
    else
      match FitBackground(background.value, audio.value)
      case Err(_) => (None, None)
      case Ok(fit) =>
        if !writes then (None, None)
        else (Some(Clip(FittedLength(fit, background.value, audio.value), VideoWidth, VideoHeight, audio.value)), Some(outputPath))
  }

  /** `create_video` returns the path it was given, and the video it writes is as long as the audio. */
  lemma {:induction false} CreateVideoOutcome(audio: Option<Seconds>, background: Option<Seconds>, writes: bool, outputPath: string)
    ensures var (clip, r) := CreateVideo(audio, background, writes, outputPath);
            r.Some? ==> r.value == outputPath && clip.Some? && clip.value.duration == audio.value
    ensures var (clip, r) := CreateVideo(audio, background, writes, outputPath);
            r.Some? <==> writes && audio.Some? && background.Some? && background.value > 0.0
  {
    if audio.Some? && background.Some? {
      FitMatchesAudio(background.value, audio.value);
    }
  }

  /** `get_video_duration`: the clip's length, or 0 when loading it raises. */
  function GetVideoDuration(probe: Option<Seconds>): (r: Seconds)
    ensures probe.None? ==> r == 0.0
    ensures probe.Some? ==> r == probe.value
  {
    probe.GetOr(0.0)
  }
}
