/**
 * The narration step (voice_generator.py): the key the voice client uses,
 * the text it sends, the name of the audio file it writes and the
 * status-driven retry over the ElevenLabs key list.
 */
module Narration {
  import opened Outcomes
  import opened PyStrings
  import opened Settings
  import opened KeyStore
  import opened Stories

  // ---------------------------------------------------------------- the key

  /**
   * `update_api_key`: the first ElevenLabs key when there is one, otherwise
   * the `ELEVENLABS_API_KEY` environment value (`env`, absent when unset),
   * with '' as the default.
   */
  function VoiceKey(elevenLabs: seq<string>, env: Option<string>): string {
    if elevenLabs != [] then elevenLabs[0] else env.GetOr("")
  }

  /** A usable key is a truthy one: `generate_voice` stops at once on ''. */
  function KeyClient(key: string): (r: Option<string>)
    ensures r.None? <==> key == []
    ensures r.Some? ==> r.value == key
  {
    if key == [] then None else Some(key)
  }

  /** The key a retry uses after the list has been rotated and `update_api_key` has run. */
  function VoiceClient(env: Option<string>): seq<string> -> Option<string> {
    keys => KeyClient(VoiceKey(keys, env))
  }

  /**
   * The key comes from the list whenever the list has one, so the
   * environment is consulted only for an empty list, and a key is used
   * exactly when it is not ''.
   */
  lemma {:induction false} VoiceKeyChoice(elevenLabs: seq<string>, env: Option<string>)
    ensures elevenLabs != [] ==> VoiceKey(elevenLabs, env) == elevenLabs[0]
    ensures elevenLabs == [] && env.None? ==> VoiceKey(elevenLabs, env) == []
    ensures elevenLabs == [] && env.Some? ==> VoiceKey(elevenLabs, env) == env.value
    ensures VoiceClient(env)(elevenLabs).Some? <==> VoiceKey(elevenLabs, env) != []
  {
    assert VoiceClient(env)(elevenLabs) == KeyClient(VoiceKey(elevenLabs, env));
  }

  // ---------------------------------------------------------------- the file name

  const VoicePrefix: string := "voice_"
  const Mp3: string := ".mp3"

  /** The audio file name of `generate_voice`: the video id goes in only when it is truthy. */
  function VoiceFileName(videoId: string, stamp: string): string {
    if videoId != [] then VoicePrefix + videoId + "_" + stamp + Mp3 else VoicePrefix + stamp + Mp3
  }

  /** Where `generate_voice` writes the audio. */
  function VoicePath(videoId: string, stamp: string): string {
    PathJoin(TempDir, VoiceFileName(videoId, stamp))
  }

  /**
   * The audio lies directly in the temporary directory under a name that
   * opens with "voice_" and closes with ".mp3"; a truthy video id is followed
   * by "_" and the time stamp, and without one the stamp follows the prefix.
   */
  lemma {:induction false} VoicePathShape(videoId: string, stamp: string)
    ensures var name := VoiceFileName(videoId, stamp);
            VoicePath(videoId, stamp) == TempDir + "/" + name
            && StartsWith(name, VoicePrefix) && EndsWith(name, Mp3)
    ensures videoId != [] ==> VoiceFileName(videoId, stamp)[|VoicePrefix|..] == videoId + "_" + stamp + Mp3
    ensures videoId == [] ==> VoiceFileName(videoId, stamp)[|VoicePrefix|..] == stamp + Mp3
  {
    var name := VoiceFileName(videoId, stamp);
    assert name[..|VoicePrefix|] == VoicePrefix;
    assert name[|name| - |Mp3|..] == Mp3;
    assert !StartsWith(name, "/") by {
      assert name[0] == 'v';
    }
  }

  // ---------------------------------------------------------------- generate_voice

  /** What one request meets: an HTTP status, or an exception (also one raised while writing the audio). */
  datatype Response = Answered(status: int) | Errored

  /** One pass through the body of `generate_voice`: the time stamp it takes and the response it meets. */
  datatype VoiceAttempt = VoiceAttempt(stamp: string, response: Response)

  const StatusOk: int := 200

  /**
   * One pass through `generate_voice` (voice_generator.py:26-81): it sends
   * the cleaned text; status 200 gives the audio's path, another status
   * rotates the keys, and an exception gives nothing.
   */
  function VoicePass(cleaned: string, videoId: string, a: VoiceAttempt): Pass<string> {
    var step := match a.response
      case Errored => Done(None)
      case Answered(status) => if status == StatusOk then Done(Some(VoicePath(videoId, a.stamp))) else Rotate;
    Pass(cleaned, step)
  }

  function VoicePasses(cleaned: string, videoId: string, attempts: seq<VoiceAttempt>): (r: seq<Pass<string>>)
    ensures |r| == |attempts| && forall i :: 0 <= i < |r| ==> r[i] == VoicePass(cleaned, videoId, attempts[i])
  {
    seq(|attempts|, i requires 0 <= i < |attempts| => VoicePass(cleaned, videoId, attempts[i]))
  }

  /** Every pass sends the cleaned text, and it rotates exactly when the service answered with a status other than 200. */
  lemma {:induction false} VoicePassesMeaning(cleaned: string, videoId: string, attempts: seq<VoiceAttempt>)
    ensures var r := VoicePasses(cleaned, videoId, attempts);
            forall i :: 0 <= i < |r| ==>
              r[i].payload == cleaned
              && (r[i].step == Rotate <==> attempts[i].response.Answered? && attempts[i].response.status != StatusOk)
  {
  }

  /** A pass answers with a path only after status 200, and the path is the audio's. */
  lemma {:induction false} VoicePassAnswer(cleaned: string, videoId: string, a: VoiceAttempt)
    ensures var step := VoicePass(cleaned, videoId, a).step;
            step.Done? && step.answer.Some? ==> a.response == Answered(StatusOk) && step.answer.value == VoicePath(videoId, a.stamp)
  {
  }

  /**
   * `generate_voice` with the ElevenLabs key list `eleven`, the environment
   * value and the key currently held, facing the passes in `attempts` one at
   * a time.  With the key '' nothing is sent and nothing is returned.
   */
  function RunVoice(cleaned: string, videoId: string, eleven: seq<string>, env: Option<string>,
                    apiKey: string, attempts: seq<VoiceAttempt>): (r: Run<string>)
    ensures apiKey == [] ==> r.outcome == Returned(None) && r.requests == [] && r.keys == eleven
    ensures |r.requests| <= |attempts|
  {
    Retry(eleven, VoiceClient(env), KeyClient(apiKey), VoicePasses(cleaned, videoId, attempts))
  }

  /** Every request of a run, the first and every retry, sends the same cleaned text. */
  lemma {:induction false} RunVoiceSendsCleanedText(cleaned: string, videoId: string, eleven: seq<string>, env: Option<string>,
                                 apiKey: string, attempts: seq<VoiceAttempt>)
    ensures var r := RunVoice(cleaned, videoId, eleven, env, apiKey, attempts);
            forall j :: 0 <= j < |r.requests| ==> r.requests[j].payload == cleaned
  {
    var passes := VoicePasses(cleaned, videoId, attempts);
    RetryTrace(eleven, VoiceClient(env), KeyClient(apiKey), passes);
  }

  /**
   * Every request but the last met a status other than 200, and a run still
   * retrying has used up every pass.
   */
  lemma {:induction false} RunVoiceTrace(cleaned: string, videoId: string, eleven: seq<string>, env: Option<string>,
                      apiKey: string, attempts: seq<VoiceAttempt>)
    ensures var r := RunVoice(cleaned, videoId, eleven, env, apiKey, attempts);
            forall j :: 0 <= j < |r.requests| - 1 ==>
              attempts[j].response.Answered? && attempts[j].response.status != StatusOk
    ensures var r := RunVoice(cleaned, videoId, eleven, env, apiKey, attempts);
            r.outcome == StillRetrying ==> |r.requests| == |attempts|
  {
    var passes := VoicePasses(cleaned, videoId, attempts);
    RetryTrace(eleven, VoiceClient(env), KeyClient(apiKey), passes);
    var r := RunVoice(cleaned, videoId, eleven, env, apiKey, attempts);
    forall j | 0 <= j < |r.requests| - 1
      ensures attempts[j].response.Answered? && attempts[j].response.status != StatusOk
    {
      assert passes[j] == VoicePass(cleaned, videoId, attempts[j]);
    }
  }

  /** A path comes from status 200 in the last pass, and it is the audio path of that pass's time stamp. */
  lemma {:induction false} RunVoiceAnswer(cleaned: string, videoId: string, eleven: seq<string>, env: Option<string>,
                       apiKey: string, attempts: seq<VoiceAttempt>)
    ensures var r := RunVoice(cleaned, videoId, eleven, env, apiKey, attempts);
            r.outcome.Returned? && r.outcome.answer.Some? ==>
              |r.requests| > 0
              && var a := attempts[|r.requests| - 1];
                 a.response == Answered(StatusOk) && r.outcome.answer.value == VoicePath(videoId, a.stamp)
  {
    var passes := VoicePasses(cleaned, videoId, attempts);
    RetryTrace(eleven, VoiceClient(env), KeyClient(apiKey), passes);
    var r := RunVoice(cleaned, videoId, eleven, env, apiKey, attempts);
    if r.outcome.Returned? && r.outcome.answer.Some? {
      var a := attempts[|r.requests| - 1];
      assert passes[|r.requests| - 1] == VoicePass(cleaned, videoId, a);
      VoicePassAnswer(cleaned, videoId, a);
    }
  }

  /** The key list a run leaves behind is a rotation of the one it started with. */
  lemma {:induction false} RunVoiceRotates(cleaned: string, videoId: string, eleven: seq<string>, env: Option<string>,
                        apiKey: string, attempts: seq<VoiceAttempt>)
    ensures var r := RunVoice(cleaned, videoId, eleven, env, apiKey, attempts);
            (exists n: nat :: n <= |attempts| && r.keys == RotateTimes(eleven, n))
            && multiset(r.keys) == multiset(eleven)
  {
    RetryRotates(eleven, VoiceClient(env), KeyClient(apiKey), VoicePasses(cleaned, videoId, attempts));
  }

  /** An exception ends the run with nothing, after one request, and leaves the keys where they were. */
  lemma {:induction false} ExceptionDoesNotRotate(cleaned: string, videoId: string, eleven: seq<string>, env: Option<string>,
                               apiKey: string, attempts: seq<VoiceAttempt>)
    requires apiKey != [] && attempts != [] && attempts[0].response == Errored
    ensures var r := RunVoice(cleaned, videoId, eleven, env, apiKey, attempts);
            r.outcome == Returned(None) && r.keys == eleven && r.requests == [Request(apiKey, cleaned)]
  {
    assert VoicePasses(cleaned, videoId, attempts)[0] == VoicePass(cleaned, videoId, attempts[0]);
  }

  /**
   * A status other than 200 with one key or none ends the run with nothing;
   * with more keys the list is rotated left by one, the key is refreshed from
   * it and the same text is sent again.
   */
  lemma {:induction false} FailedStatusRotates(cleaned: string, videoId: string, eleven: seq<string>, env: Option<string>,
                            apiKey: string, attempts: seq<VoiceAttempt>)
    requires apiKey != [] && attempts != [] && attempts[0].response.Answered?
    requires attempts[0].response.status != StatusOk
    ensures |eleven| <= 1 ==>
              RunVoice(cleaned, videoId, eleven, env, apiKey, attempts)
              == Run(Returned(None), [Request(apiKey, cleaned)], eleven, Some(apiKey))
    ensures |eleven| > 1 ==>
              var r := RunVoice(cleaned, videoId, eleven, env, apiKey, attempts);
              var next := RunVoice(cleaned, videoId, RotateLeft(eleven), env, RotateLeft(eleven)[0], attempts[1..]);
              r == Run(next.outcome, [Request(apiKey, cleaned)] + next.requests, next.keys, next.client)
  {
    var passes := VoicePasses(cleaned, videoId, attempts);
    assert passes[0] == VoicePass(cleaned, videoId, attempts[0]);
    if |eleven| > 1 {
      var rotated := RotateLeft(eleven);
      RetryAgain(eleven, VoiceClient(env), KeyClient(apiKey), passes);
      assert VoiceClient(env)(rotated) == KeyClient(rotated[0]);
      assert passes[1..] == VoicePasses(cleaned, videoId, attempts[1..]);
    }
  }

  /** With every ElevenLabs key truthy, every rotation of the list gives its first key. */
  lemma {:induction false} VoiceClientFollowsRotation(eleven: seq<string>, env: Option<string>)
    requires eleven != [] && forall k :: k in eleven ==> k != []
    ensures forall m: nat :: VoiceClient(env)(RotateTimes(eleven, m)) == Some(RotateTimes(eleven, m)[0])
  {
    forall m: nat
      ensures VoiceClient(env)(RotateTimes(eleven, m)) == Some(RotateTimes(eleven, m)[0])
    {
      var ks := RotateTimes(eleven, m);
      RotateTimesPermutes(eleven, m);
      assert ks[0] in multiset(ks);
      assert ks[0] in eleven;
      assert VoiceClient(env)(ks) == KeyClient(VoiceKey(ks, env));
    }
  }

  /** Passes that met a status other than 200 are the ones that rotate. */
  lemma {:induction false} FailedPassesRotate(cleaned: string, videoId: string, attempts: seq<VoiceAttempt>)
    requires forall j :: 0 <= j < |attempts| ==> attempts[j].response.Answered? && attempts[j].response.status != StatusOk
    ensures forall j :: 0 <= j < |attempts| ==> VoicePasses(cleaned, videoId, attempts)[j].step == Rotate
  {
  }

  /**
   * With every ElevenLabs key truthy, a run of failed statuses tries the
   * keys in list order, one request each, and when every pass fails the run
   * is still retrying: there is no retry bound.
   */
  lemma {:induction false} EveryVoiceKeyTriedInTurn(cleaned: string, videoId: string, eleven: seq<string>, env: Option<string>,
                                 attempts: seq<VoiceAttempt>)
    requires |eleven| > 1 && forall k :: k in eleven ==> k != []
    requires forall j :: 0 <= j < |attempts| ==> attempts[j].response.Answered? && attempts[j].response.status != StatusOk
    ensures var r := RunVoice(cleaned, videoId, eleven, env, eleven[0], attempts);
            |r.requests| == |attempts| && forall j :: 0 <= j < |eleven| && j < |attempts| ==> r.requests[j].key == eleven[j]
    ensures RunVoice(cleaned, videoId, eleven, env, eleven[0], attempts).outcome == StillRetrying
  {
    VoiceClientFollowsRotation(eleven, env);
    FailedPassesRotate(cleaned, videoId, attempts);
    assert eleven[0] in eleven;
    RetryCycles(eleven, VoiceClient(env), VoicePasses(cleaned, videoId, attempts), |attempts|);
    RotationCycles(eleven);
  }

  // ---------------------------------------------------------------- the generator

  /**
   * `VoiceGenerator`: it holds the key it sends, refreshed from the shared
   * key store.  `env` stands for the `ELEVENLABS_API_KEY` environment value.
   */
  class VoiceGenerator {
    const config: ApiConfig
    var apiKey: string

    /** `__init__`: take the key through `update_api_key`. */
    constructor (config: ApiConfig, env: Option<string>)
      ensures this.config == config && apiKey == VoiceKey(config.elevenLabsKeys, env)
    {
      this.config := config;
      apiKey := VoiceKey(config.elevenLabsKeys, env);
    }

    /** `update_api_key` */
    method UpdateApiKey(env: Option<string>)
      modifies this
      ensures apiKey == VoiceKey(config.elevenLabsKeys, env)
    {
      if config.elevenLabsKeys != [] {
        apiKey := config.elevenLabsKeys[0];
      } else {
        apiKey := env.GetOr("");
      }
    }

    /** `append(pop(0))` on the ElevenLabs list followed by `update_api_key`. */
    method RotateKeys(env: Option<string>)
      requires |config.elevenLabsKeys| > 1
      modifies this, config
      ensures config.elevenLabsKeys == RotateLeft(old(config.elevenLabsKeys))
      ensures apiKey == VoiceKey(config.elevenLabsKeys, env)
      ensures config.cohereKeys == old(config.cohereKeys) && config.preferredAiProvider == old(config.preferredAiProvider)
    {
      config.elevenLabsKeys := config.elevenLabsKeys[1..] + [config.elevenLabsKeys[0]];
      UpdateApiKey(env);
    }

    /**
     * A pass that failed with more than one key stored: its request is
     * recorded, the keys are rotated, and the rest of the call is the call
     * on the rotated list and the remaining passes.
     */
    method RetryRotated(ghost whole: Run<string>, ghost requests: seq<Request>, ghost rest: seq<Pass<string>>, env: Option<string>)
      requires apiKey != [] && rest != [] && rest[0].step == Rotate && |config.elevenLabsKeys| > 1
      requires Continues(whole, requests, Retry(config.elevenLabsKeys, VoiceClient(env), KeyClient(apiKey), rest))
      modifies this, config
      ensures Continues(whole, requests + [Request(old(apiKey), rest[0].payload)], Retry(config.elevenLabsKeys, VoiceClient(env), KeyClient(apiKey), rest[1..]))
      ensures config.cohereKeys == old(config.cohereKeys) && config.preferredAiProvider == old(config.preferredAiProvider)
    {
      ContinuesAfterRotate(whole, requests, config.elevenLabsKeys, VoiceClient(env), KeyClient(apiKey), rest);
      RotateKeys(env);
      assert KeyClient(apiKey) == VoiceClient(env)(config.elevenLabsKeys);
    }

    /**
     * `clean_text_for_voice`: its loop and its normalisation are those of
     * `clean_story_text`, so it is that transformation.
     */
    method CleanTextForVoice(text: string) returns (r: string)
      ensures r == CleanedStory(text)
    {
      r := CleanStoryText(text);
    }

    /**
     * `generate_voice`: the text is cleaned, then sent until a pass ends the
     * call.  The text does not change between retries, so cleaning it once
     * gives what the source's cleaning on every retry gives.
     */
    method GenerateVoice(text: string, videoId: string, env: Option<string>, attempts: seq<VoiceAttempt>)
      returns (r: Outcome<string>, requests: seq<Request>)
      modifies this, config
      ensures var run := RunVoice(CleanedStory(text), videoId, old(config.elevenLabsKeys), env, old(apiKey), attempts);
              run == Run(r, requests, config.elevenLabsKeys, KeyClient(apiKey))
      ensures config.cohereKeys == old(config.cohereKeys) && config.preferredAiProvider == old(config.preferredAiProvider)
    {
      var cleaned := CleanTextForVoice(text);
      r, requests := SendVoice(cleaned, videoId, env, attempts);
    }

    /**
     * The recursive retry of `generate_voice` written as a loop: it returns
     * the outcome and the requests sent, leaves the rotated ElevenLabs list
     * in the key store and the last key taken in `apiKey`.
     */
    method SendVoice(cleaned: string, videoId: string, env: Option<string>, attempts: seq<VoiceAttempt>)
      returns (r: Outcome<string>, requests: seq<Request>)
      modifies this, config
      ensures var run := RunVoice(cleaned, videoId, old(config.elevenLabsKeys), env, old(apiKey), attempts);
              run == Run(r, requests, config.elevenLabsKeys, KeyClient(apiKey))
      ensures config.cohereKeys == old(config.cohereKeys) && config.preferredAiProvider == old(config.preferredAiProvider)
    {
      ghost var passes := VoicePasses(cleaned, videoId, attempts);
      ghost var clientOf := VoiceClient(env);
      ghost var whole := RunVoice(cleaned, videoId, config.elevenLabsKeys, env, apiKey, attempts);
      requests := [];
      var i := 0;
      while true
        invariant 0 <= i <= |attempts|
        invariant whole == RunVoice(cleaned, videoId, old(config.elevenLabsKeys), env, old(apiKey), attempts)
        invariant config.cohereKeys == old(config.cohereKeys)
        invariant config.preferredAiProvider == old(config.preferredAiProvider)
        invariant Continues(whole, requests, Retry(config.elevenLabsKeys, clientOf, KeyClient(apiKey), passes[i..]))
        decreases |attempts| - i
      {
        if apiKey == [] {
          EndsWithoutClient(whole, requests, config.elevenLabsKeys, clientOf, passes[i..]);
          return Returned(None), requests;
        }
        if i == |attempts| {
          assert passes[i..] == [];
          EndsOutOfPasses(whole, requests, config.elevenLabsKeys, clientOf, KeyClient(apiKey));
          return StillRetrying, requests;
        }
        var a := attempts[i];
        assert passes[i..][0] == passes[i] == VoicePass(cleaned, videoId, a);
        var request := Request(apiKey, cleaned);
        match a.response {
          case Errored =>
            assert passes[i..][0].step == Done(None);
            EndsAtPass(whole, requests, config.elevenLabsKeys, clientOf, KeyClient(apiKey), passes[i..]);
            return Returned(None), requests + [request];
          case Answered(status) =>
            if status == StatusOk {
              assert passes[i..][0].step == Done(Some(VoicePath(videoId, a.stamp)));
              EndsAtPass(whole, requests, config.elevenLabsKeys, clientOf, KeyClient(apiKey), passes[i..]);
              return Returned(Some(VoicePath(videoId, a.stamp))), requests + [request];
            }
            assert passes[i..][0].step == Rotate;
            if |config.elevenLabsKeys| > 1 {
              RetryRotated(whole, requests, passes[i..], env);
              requests := requests + [request];
              assert passes[i..][1..] == passes[i + 1..];
              i := i + 1;
            } else {
              EndsAtPass(whole, requests, config.elevenLabsKeys, clientOf, KeyClient(apiKey), passes[i..]);
              return Returned(None), requests + [request];
            }
        }
      }
    }
  }
}
