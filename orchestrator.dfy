/**
 * The pipeline driver (main.py): the key check, one video as story, voice,
 * background and edit in that order with an early stop, and a batch of
 * videos.  Each stage's result is an input; what the stages themselves do
 * is modelled in their own modules.
 */
module Orchestrator {
  import opened Outcomes
  import opened Settings
  import opened KeyStore
  import opened Stories
  import opened Backgrounds

  // ---------------------------------------------------------------- check_api_keys

  /**
   * `check_api_keys`: the preferred text-service key is truthy, and so is
   * the first ElevenLabs key.
   */
  function ApiKeysReady(cohere: seq<string>, eleven: seq<string>, provider: string): bool {
    var key := PreferredKey(cohere, eleven, provider);
    key.Some? && key.value != [] && eleven != [] && eleven[0] != []
  }

  /**
   * The check passes only with a truthy first ElevenLabs key; it then
   * passes with no Cohere key at all, because the preferred key falls back
   * to that ElevenLabs key.
   */
  lemma {:induction false} KeyCheck(cohere: seq<string>, eleven: seq<string>, provider: string)
    ensures ApiKeysReady(cohere, eleven, provider) ==> eleven != [] && eleven[0] != []
    ensures eleven != [] && eleven[0] != [] && !(provider == Cohere && cohere != []) ==> ApiKeysReady(cohere, eleven, provider)
    ensures provider == Cohere && cohere != [] ==>
              (ApiKeysReady(cohere, eleven, provider) <==> cohere[0] != [] && eleven != [] && eleven[0] != [])
  {
  }

  /** An ElevenLabs key alone passes the check. */
  lemma {:induction false} ElevenLabsOnlyPasses(key: string, provider: string)
    requires key != []
    ensures ApiKeysReady([], [key], provider)
  {
    ElevenLabsOnlyStillYieldsKey([key], provider);
  }

  // ---------------------------------------------------------------- generate_video

  /** A stage call of `generate_video`, with the arguments it passes. */
  datatype Call =
    | StoryCall(genre: Option<string>)
    | ContinuationCall(continuationId: string)
    | VoiceCall(text: string, videoId: string)
    | BackgroundCall(targetDuration: nat, videoId: string)
    | EditorCall(audioPath: string, backgroundPath: string, text: string, videoId: string)

  /**
   * What each stage returns (absent when it returns None or raises): the
   * story record, the audio path, the background path and the editor's path.
   */
  datatype Stages = Stages(story: Option<StoryRecord>, audio: Option<string>, background: Option<string>,
                           output: Option<string>)

  /** Python truthiness of a path: present and not ''. */
  predicate Truthy(p: Option<string>) {
    p.Some? && p.value != []
  }

  /**
   * `generate_video`: the stage calls made, in order, and the path
   * returned.  A truthy continuation id takes the continuation path.
   */
  function GenerateVideo(genre: Option<string>, continuationId: string, s: Stages): (seq<Call>, Option<string>) {
    var first := if continuationId != [] then ContinuationCall(continuationId) else StoryCall(genre);
    if s.story.None? then ([first], None)
    else
      var text := s.story.value.story;
      var id := s.story.value.videoId;
      var voiced := [first, VoiceCall(text, id)];
      if !Truthy(s.audio) then (voiced, None)
      else
        var backed := voiced + [BackgroundCall(MaxDuration, id)];
        if !Truthy(s.background) then (backed, None)
        else
          var edited := backed + [EditorCall(s.audio.value, s.background.value, text, id)];
          (edited, if Truthy(s.output) then s.output else None)
  }

  /** The stages `generate_video` reaches with these results: one past the last stage that succeeded. */
  function StagesReached(s: Stages): nat {
    if s.story.None? then 1
    else if !Truthy(s.audio) then 2
    else if !Truthy(s.background) then 3
    else 4
  }

  /**
   * The calls follow the order story, voice, background, editor and stop
   * at the first stage whose result is falsy; a path is returned only when
   * every stage succeeded, and it is the editor's.  The voice, background
   * and editor get the story's text and id, the editor gets the audio and
   * background paths, and the background is asked for `MAX_DURATION`
   * seconds, whatever the audio's length.
   */
  lemma {:induction false} VideoStages(genre: Option<string>, continuationId: string, s: Stages)
    ensures var (calls, r) := GenerateVideo(genre, continuationId, s);
            |calls| == StagesReached(s)
            && calls[0] == (if continuationId != [] then ContinuationCall(continuationId) else StoryCall(genre))
    ensures var (calls, r) := GenerateVideo(genre, continuationId, s);
            |calls| > 1 ==>
              var text := s.story.value.story;
              var id := s.story.value.videoId;
              calls[1] == VoiceCall(text, id)
              && (|calls| > 2 ==> calls[2] == BackgroundCall(MaxDuration, id))
              && (|calls| > 3 ==> calls[3] == EditorCall(s.audio.value, s.background.value, text, id))
    ensures var (calls, r) := GenerateVideo(genre, continuationId, s);
            r.Some? <==> |calls| == 4 && Truthy(s.output)
    ensures var (calls, r) := GenerateVideo(genre, continuationId, s);
            r.Some? ==> r == s.output
  {
  }

  /**
   * The background stage never stops the run: `get_random_background`
   * returns its output path, which is never '', whatever it managed to
   * write.  So once the voice has succeeded the editor is called.
   */
  lemma {:induction false} BackgroundNeverStops(genre: Option<string>, continuationId: string, s: Stages,
                             videoId: string, stamp: string, localExists: bool, env: Rendering)
    requires 0.0 <= env.draw < 1.0
    requires s.story.Some? && Truthy(s.audio)
    requires s.background == Some(GetRandomBackground(Some(MaxDuration as real), videoId, stamp, localExists, env).0)
    ensures |GenerateVideo(genre, continuationId, s).0| == 4
  {
    BackgroundOutcome(Some(MaxDuration as real), videoId, stamp, localExists, env);
    BackgroundNameShape(videoId, stamp);
  }

  // ---------------------------------------------------------------- generate_batch

  /** An event of `generate_batch`: run `i` of `generate_video`, or the pause between two runs. */
  datatype Event = Generate(run: nat) | Pause(seconds: nat)

  /** `time.sleep(2)` between two runs. */
  const PauseSeconds: nat := 2

  /** The events of the first `i` iterations out of `count`: each run, then a pause unless it is the last. */
  function Schedule(i: nat, count: nat): seq<Event> {
    if i == 0 then []
    else Schedule(i - 1, count) + [Generate(i - 1)] + (if i - 1 < count - 1 then [Pause(PauseSeconds)] else [])
  }

  /** The next run, followed by a pause unless it is the last. */
  lemma {:induction false} ScheduleStep(i: nat, count: nat)
    ensures Schedule(i + 1, count) == Schedule(i, count) + [Generate(i)] + (if i < count - 1 then [Pause(PauseSeconds)] else [])
  {
  }

  /**
   * The runs and pauses alternate, starting with a run; after all `count`
   * iterations there are `count` runs and one pause fewer, so no pause
   * follows the last run.
   */
  lemma {:induction false} ScheduleShape(i: nat, count: nat)
    requires i <= count
    ensures |Schedule(i, count)| == if i == 0 then 0 else if i < count then 2 * i else 2 * i - 1
    ensures forall k :: 0 <= k < |Schedule(i, count)| ==>
              Schedule(i, count)[k] == if k % 2 == 0 then Generate(k / 2) else Pause(PauseSeconds)
  {
    if i > 0 {
      ScheduleShape(i - 1, count);
      var before := Schedule(i - 1, count);
      var s := Schedule(i, count);
      assert |before| == 2 * (i - 1);
      forall k | 0 <= k < |s|
        ensures s[k] == if k % 2 == 0 then Generate(k / 2) else Pause(PauseSeconds)
      {
        if k < |before| {
          assert s[k] == before[k];
        } else if k == |before| {
          assert s[k] == Generate(i - 1);
        } else {
          assert s[k] == Pause(PauseSeconds);
        }
      }
    }
  }

  /** The truthy paths among the runs' results, in run order. */
  function Successes(results: seq<Option<string>>): (r: seq<string>)
    ensures |r| <= |results|
    ensures forall k :: 0 <= k < |r| ==> r[k] != []
  {
    if results == [] then []
    else
      var rest := Successes(results[..|results| - 1]);
      var last := results[|results| - 1];
      if Truthy(last) then rest + [last.value] else rest
  }

  /** Every path in the batch's result is the result of one of its runs, and a run's truthy path is there. */
  lemma {:induction false} SuccessesAreRuns(results: seq<Option<string>>)
    ensures forall p :: p in Successes(results) <==> exists k :: 0 <= k < |results| && Truthy(results[k]) && results[k].value == p
  {
    if results != [] {
      var front := results[..|results| - 1];
      SuccessesAreRuns(front);
      forall p
        ensures p in Successes(results) <==> exists k :: 0 <= k < |results| && Truthy(results[k]) && results[k].value == p
      {
        if p in Successes(front) {
          var k :| 0 <= k < |front| && Truthy(front[k]) && front[k].value == p;
          assert results[k] == front[k];
        }
        if exists k :: 0 <= k < |results| && Truthy(results[k]) && results[k].value == p {
          var k :| 0 <= k < |results| && Truthy(results[k]) && results[k].value == p;
          if k < |front| {
            assert front[k] == results[k];
          }
        }
      }
    }
  }

  /** The path each run of a batch returns. */
  function BatchResults(genre: Option<string>, stages: seq<Stages>): (r: seq<Option<string>>)
    ensures |r| == |stages| && forall i :: 0 <= i < |r| ==> r[i] == GenerateVideo(genre, [], stages[i]).1
    ensures forall i :: 0 <= i < |r| ==>
              (Truthy(r[i]) <==> StagesReached(stages[i]) == 4 && Truthy(stages[i].output))
              && (r[i].Some? ==> r[i] == stages[i].output)
  {
    seq(|stages|, i requires 0 <= i < |stages| => GenerateVideo(genre, [], stages[i]).1)
  }

  /** One more run adds its path to the successes exactly when the path is truthy. */
  lemma {:induction false} SuccessesStep(genre: Option<string>, stages: seq<Stages>, i: nat)
    requires i < |stages|
    ensures var path := GenerateVideo(genre, [], stages[i]).1;
            Successes(BatchResults(genre, stages[..i + 1]))
            == Successes(BatchResults(genre, stages[..i])) + (if Truthy(path) then [path.value] else [])
  {
    var b := BatchResults(genre, stages[..i + 1]);
    assert b[..|b| - 1] == BatchResults(genre, stages[..i]);
  }

  /**
   * `generate_batch`: nothing happens when the key check fails; otherwise
   * `generate_video(genre)` runs `count` times, facing the stage results in
   * `stages`, with a pause between runs, and the truthy paths are returned
   * in run order.
   */
  method GenerateBatch(config: ApiConfig, count: int, genre: Option<string>, stages: seq<Stages>)
    returns (r: Option<seq<string>>, events: seq<Event>)
    requires count <= |stages|
    ensures !ApiKeysReady(config.cohereKeys, config.elevenLabsKeys, config.preferredAiProvider) ==> r == None && events == []
    ensures ApiKeysReady(config.cohereKeys, config.elevenLabsKeys, config.preferredAiProvider) ==>
              var n := if count < 0 then 0 else count;
              r == Some(Successes(BatchResults(genre, stages[..n]))) && events == Schedule(n, n)
  {
    events := [];
    if !ApiKeysReady(config.cohereKeys, config.elevenLabsKeys, config.preferredAiProvider) {
      return None, events;
    }
    var n := if count < 0 then 0 else count;
    var successful: seq<string> := [];
    for i := 0 to n
      invariant successful == Successes(BatchResults(genre, stages[..i]))
      invariant events == Schedule(i, n)
    {
      var videoPath := GenerateVideo(genre, [], stages[i]).1;
      SuccessesStep(genre, stages, i);
      ScheduleStep(i, n);
      if Truthy(videoPath) {
        successful := successful + [videoPath.value];
      }
      events := events + [Generate(i)];
      if i < n - 1 {
        events := events + [Pause(PauseSeconds)];
      }
    }
    return Some(successful), events;
  }
}
