/**
 * The credential store (api_config.py): two ordered key lists, one for the
 * text-generation provider (Cohere) and one for speech synthesis
 * (ElevenLabs), and the name of the preferred text provider.  The
 * generators share one instance and rotate its lists in place when a key
 * fails.  Writing the lists back to api_keys.json is not modelled.
 */
module KeyStore {
  import opened Outcomes

  const Cohere: string := "cohere"
  const ElevenLabs: string := "elevenlabs"

  /** No key occurs twice. */
  predicate Distinct(keys: seq<string>) {
    forall i, j :: 0 <= i < j < |keys| ==> keys[i] != keys[j]
  }

  // ---------------------------------------------------------------- rotation

  /** `keys.append(keys.pop(0))`: the failed first key goes to the back. */
  function RotateLeft<T>(keys: seq<T>): (r: seq<T>)
    requires keys != []
    ensures |r| == |keys| && r[|r| - 1] == keys[0] && r[..|r| - 1] == keys[1..]
  {
    keys[1..] + [keys[0]]
  }

  /** Rotation keeps every key and adds none. */
  lemma {:induction false} RotateLeftPermutes<T>(keys: seq<T>)
    requires keys != []
    ensures multiset(RotateLeft(keys)) == multiset(keys)
  {
    assert keys == [keys[0]] + keys[1..];
  }

  /** The list after `n` rotations. */
  function RotateTimes<T>(keys: seq<T>, n: nat): (r: seq<T>)
    ensures |r| == |keys|
  {
    if n == 0 || keys == [] then keys else RotateLeft(RotateTimes(keys, n - 1))
  }

  /** After `n` rotations of at most `|keys|`, the first `n` keys have moved, in order, to the back. */
  lemma {:induction false} RotateTimesShape<T>(keys: seq<T>, n: nat)
    requires n <= |keys|
    ensures RotateTimes(keys, n) == keys[n..] + keys[..n]
  {
    if n > 0 {
      RotateTimesShape(keys, n - 1);
      RotateSplit(keys, n);
    }
  }

  /** Rotating the list split before index `n - 1` gives the list split before index `n`. */
  lemma {:induction false} RotateSplit<T>(keys: seq<T>, n: nat)
    requires 0 < n <= |keys|
    ensures RotateLeft(keys[n - 1..] + keys[..n - 1]) == keys[n..] + keys[..n]
  {
    var prev := keys[n - 1..] + keys[..n - 1];
    assert prev[0] == keys[n - 1];
    assert prev[1..] == keys[n..] + keys[..n - 1];
    assert keys[..n - 1] + [keys[n - 1]] == keys[..n];
    calc {
      RotateLeft(prev);
      prev[1..] + [prev[0]];
      (keys[n..] + keys[..n - 1]) + [keys[n - 1]];
      keys[n..] + (keys[..n - 1] + [keys[n - 1]]);
    }
  }

  /** Rotating once and then `n` times is rotating `n + 1` times. */
  lemma {:induction false} RotateTimesAfterOne<T>(keys: seq<T>, n: nat)
    requires keys != []
    ensures RotateTimes(RotateLeft(keys), n) == RotateTimes(keys, n + 1)
  {
    if n > 0 {
      RotateTimesAfterOne(keys, n - 1);
    }
  }

  /** Any number of rotations keeps every key and adds none. */
  lemma {:induction false} RotateTimesPermutes<T>(keys: seq<T>, n: nat)
    ensures multiset(RotateTimes(keys, n)) == multiset(keys)
  {
    if n > 0 && keys != [] {
      var m: nat := n - 1;
      RotateTimesPermutes(keys, m);
      RotateOncePermutes(keys, m);
    }
  }

  /** One more rotation of a permutation of `keys` is still a permutation of `keys`. */
  lemma {:induction false} RotateOncePermutes<T>(keys: seq<T>, m: nat)
    requires keys != []
    requires multiset(RotateTimes(keys, m)) == multiset(keys)
    ensures multiset(RotateTimes(keys, m + 1)) == multiset(keys)
  {
    var prev := RotateTimes(keys, m);
    RotateLeftPermutes(prev);
    SamePermutation(RotateLeft(prev), prev, keys);
  }

  /** Being a permutation of is transitive. */
  lemma SamePermutation<T>(a: seq<T>, b: seq<T>, c: seq<T>)
    requires multiset(a) == multiset(b) && multiset(b) == multiset(c)
    ensures multiset(a) == multiset(c)
  {
  }

  /**
   * Rotation is a cyclic permutation: during `|keys|` consecutive failures
   * the key tried `j`-th is `keys[j]`, so every key is tried exactly once,
   * and afterwards the original order is back.
   */
  lemma {:induction false} RotationCycles<T>(keys: seq<T>)
    ensures forall j :: 0 <= j < |keys| ==> RotateTimes(keys, j)[0] == keys[j]
    ensures RotateTimes(keys, |keys|) == keys
  {
    forall j | 0 <= j < |keys|
      ensures RotateTimes(keys, j)[0] == keys[j]
    {
      RotateTimesShape(keys, j);
    }
    RotateTimesShape(keys, |keys|);
    assert keys[|keys|..] + keys[..|keys|] == keys;
  }

  // ---------------------------------------------------------------- the retry rule

  /**
   * What one pass through a generator's body decides: to return an answer
   * (possibly none), or to rotate the key list and call itself again.
   */
  datatype Step<T> = Done(answer: Option<T>) | Rotate

  /** One pass: what it sends to the external service, and what it then decides. */
  datatype Pass<T> = Pass(payload: string, step: Step<T>)

  /** A request sent to an external service: the key of the client in use, and what was sent. */
  datatype Request = Request(key: string, payload: string)

  /** How a retrying call ends: the outcome, the requests sent, and the key list and client left behind. */
  datatype Run<T> = Run(outcome: Outcome<T>, requests: seq<Request>, keys: seq<string>, client: Option<string>)

  /**
   * The retry rule both generators follow (story_generator.py:88-95,
   * voice_generator.py:70-77): no client means no answer and no request;
   * otherwise a pass sends its request, and when it decides to rotate the
   * failed key goes to the back of the list, provided there is more than one,
   * the client is rebuilt from the rotated list with `clientOf`, and the whole
   * call starts again, with no bound on the number of rounds.
   */
  function Retry<T>(keys: seq<string>, clientOf: seq<string> -> Option<string>, client: Option<string>,
                    passes: seq<Pass<T>>): (r: Run<T>)
    ensures |r.requests| <= |passes|
    ensures client.None? ==> r == Run(Returned(None), [], keys, client)
    ensures |keys| <= 1 ==> r.keys == keys && |r.requests| <= 1
    decreases |passes|
  {
    if client.None? then Run(Returned(None), [], keys, client)
    else if passes == [] then Run(StillRetrying, [], keys, client)
    else
      var request := Request(client.value, passes[0].payload);
      match passes[0].step
      case Done(answer) => Run(Returned(answer), [request], keys, client)
      case Rotate =>
        if |keys| > 1 then
          var rotated := RotateLeft(keys);
          var next := Retry(rotated, clientOf, clientOf(rotated), passes[1..]);
          Run(next.outcome, [request] + next.requests, next.keys, next.client)
        else Run(Returned(None), [request], keys, client)
  }

  /** With a client, a pass that decides sends its one request and ends the call with its answer. */
  lemma {:induction false} RetryDone<T>(keys: seq<string>, clientOf: seq<string> -> Option<string>, client: Option<string>,
                     passes: seq<Pass<T>>)
    requires client.Some? && passes != [] && passes[0].step.Done?
    ensures Retry(keys, clientOf, client, passes)
         == Run(Returned(passes[0].step.answer), [Request(client.value, passes[0].payload)], keys, client)
  {
  }

  /** A pass that rotates, with more than one key, runs the call again on the rotated list. */
  lemma {:induction false} RetryAgain<T>(keys: seq<string>, clientOf: seq<string> -> Option<string>, client: Option<string>,
                      passes: seq<Pass<T>>)
    requires client.Some? && passes != [] && passes[0].step == Rotate && |keys| > 1
    ensures var r := Retry(keys, clientOf, client, passes);
            var next := Retry(RotateLeft(keys), clientOf, clientOf(RotateLeft(keys)), passes[1..]);
            r.requests == [Request(client.value, passes[0].payload)] + next.requests
            && r.outcome == next.outcome && r.keys == next.keys && r.client == next.client
  {
  }

  /**
   * A loop that models the recursion has sent `sent` so far, and what the
   * whole call does is `sent` followed by what the remaining call `rest` does.
   */
  ghost predicate Continues<T>(whole: Run<T>, sent: seq<Request>, rest: Run<T>) {
    whole.outcome == rest.outcome && whole.requests == sent + rest.requests
    && whole.keys == rest.keys && whole.client == rest.client
  }

  /** After a rotating pass, the rest of the call is the call on the rotated list and the remaining passes. */
  lemma {:induction false} ContinuesAfterRotate<T>(whole: Run<T>, sent: seq<Request>, keys: seq<string>,
                                clientOf: seq<string> -> Option<string>, client: Option<string>, passes: seq<Pass<T>>)
    requires client.Some? && passes != [] && passes[0].step == Rotate && |keys| > 1
    requires Continues(whole, sent, Retry(keys, clientOf, client, passes))
    ensures Continues(whole, sent + [Request(client.value, passes[0].payload)],
                      Retry(RotateLeft(keys), clientOf, clientOf(RotateLeft(keys)), passes[1..]))
  {
    RetryAgain(keys, clientOf, client, passes);
    var next := Retry(RotateLeft(keys), clientOf, clientOf(RotateLeft(keys)), passes[1..]);
    assert sent + ([Request(client.value, passes[0].payload)] + next.requests)
        == (sent + [Request(client.value, passes[0].payload)]) + next.requests;
  }

  /** Without a client the whole call ends with what was sent so far and no answer. */
  lemma {:induction false} EndsWithoutClient<T>(whole: Run<T>, sent: seq<Request>, keys: seq<string>,
                             clientOf: seq<string> -> Option<string>, passes: seq<Pass<T>>)
    requires Continues(whole, sent, Retry(keys, clientOf, None, passes))
    ensures whole == Run(Returned(None), sent, keys, None)
  {
    assert sent + [] == sent;
  }

  /** With a client and no pass left, the whole call is still retrying with what was sent so far. */
  lemma {:induction false} EndsOutOfPasses<T>(whole: Run<T>, sent: seq<Request>, keys: seq<string>,
                           clientOf: seq<string> -> Option<string>, client: Option<string>)
    requires client.Some? && Continues(whole, sent, Retry(keys, clientOf, client, []))
    ensures whole == Run(StillRetrying, sent, keys, client)
  {
    assert sent + [] == sent;
  }

  /**
   * With a client, a pass that decides, or that fails with one key or none,
   * ends the whole call after its own request: with its answer, or with none.
   */
  lemma {:induction false} EndsAtPass<T>(whole: Run<T>, sent: seq<Request>, keys: seq<string>,
                      clientOf: seq<string> -> Option<string>, client: Option<string>, passes: seq<Pass<T>>)
    requires client.Some? && passes != [] && (passes[0].step.Done? || |keys| <= 1)
    requires Continues(whole, sent, Retry(keys, clientOf, client, passes))
    ensures whole == Run(Returned(if passes[0].step.Done? then passes[0].step.answer else None),
                         sent + [Request(client.value, passes[0].payload)], keys, client)
  {
  }

  /**
   * How many rotations a run made: one after each request, except after the
   * last one when the run ended with an answer from a live client.
   */
  function RotationsDone<T>(r: Run<T>): nat {
    if r.outcome == StillRetrying || r.client.None? || r.requests == [] then |r.requests| else |r.requests| - 1
  }

  /** With more than one key, a run that ends with an answer from a live client has sent a request. */
  lemma {:induction false} RetryAnsweredSent<T>(keys: seq<string>, clientOf: seq<string> -> Option<string>,
                                               client: Option<string>, passes: seq<Pass<T>>)
    requires |keys| > 1
    ensures var r := Retry(keys, clientOf, client, passes);
            r.outcome.Returned? && r.client.Some? ==> r.requests != []
    decreases |passes|
  {
    if client.Some? && passes != [] && passes[0].step.Rotate? {
      var rotated := RotateLeft(keys);
      RetryAgain(keys, clientOf, client, passes);
      RetryAnsweredSent(rotated, clientOf, clientOf(rotated), passes[1..]);
    }
  }

  /** With more than one key, the list is rotated exactly once after each request that was not answered. */
  lemma {:induction false} RetryRotationCount<T>(keys: seq<string>, clientOf: seq<string> -> Option<string>,
                                                client: Option<string>, passes: seq<Pass<T>>)
    requires |keys| > 1
    ensures var r := Retry(keys, clientOf, client, passes);
            r.keys == RotateTimes(keys, RotationsDone(r))
    decreases |passes|
  {
    if client.Some? && passes != [] && passes[0].step.Rotate? {
      var rotated := RotateLeft(keys);
      var next := clientOf(rotated);
      RetryAgain(keys, clientOf, client, passes);
      RetryRotationCount(rotated, clientOf, next, passes[1..]);
      RetryAnsweredSent(rotated, clientOf, next, passes[1..]);
      var r := Retry(keys, clientOf, client, passes);
      var rest := Retry(rotated, clientOf, next, passes[1..]);
      OneMoreRotation(r, rest);
      KeysAfterRotation(keys, rest.keys, RotationsDone(rest), RotationsDone(r));
    } else {
      assert Retry(keys, clientOf, client, passes).keys == RotateTimes(keys, 0);
    }
  }

  /** `k` rotations of the once-rotated list are `k + 1` rotations of the list. */
  lemma KeysAfterRotation(keys: seq<string>, after: seq<string>, k: nat, total: nat)
    requires |keys| > 1 && after == RotateTimes(RotateLeft(keys), k) && total == k + 1
    ensures after == RotateTimes(keys, total)
  {
    RotateTimesAfterOne(keys, k);
  }

  /** A run that sent one more request in front of `rest` and ended the same way made one more rotation. */
  lemma OneMoreRotation<T>(r: Run<T>, rest: Run<T>)
    requires |r.requests| == |rest.requests| + 1
    requires r.outcome == rest.outcome && r.client == rest.client
    requires rest.outcome.Returned? && rest.client.Some? ==> rest.requests != []
    ensures RotationsDone(r) == RotationsDone(rest) + 1
  {
  }

  /** The key list a call leaves behind is the starting list rotated once per retry: no key is lost or added. */
  lemma {:induction false} RetryRotates<T>(keys: seq<string>, clientOf: seq<string> -> Option<string>,
                                          client: Option<string>, passes: seq<Pass<T>>)
    ensures var r := Retry(keys, clientOf, client, passes);
            (exists n: nat :: n <= |passes| && r.keys == RotateTimes(keys, n))
            && multiset(r.keys) == multiset(keys)
    ensures var r := Retry(keys, clientOf, client, passes);
            |keys| > 1 ==> r.keys == RotateTimes(keys, RotationsDone(r))
    decreases |passes|
  {
    if |keys| > 1 {
      RetryRotationCount(keys, clientOf, client, passes);
    }
    var r := Retry(keys, clientOf, client, passes);
    if client.Some? && passes != [] && passes[0].step.Rotate? && |keys| > 1 {
      var rotated := RotateLeft(keys);
      RetryAgain(keys, clientOf, client, passes);
      RetryRotates(rotated, clientOf, clientOf(rotated), passes[1..]);
      var n: nat :| n <= |passes| - 1 && r.keys == RotateTimes(rotated, n);
      RotateTimesAfterOne(keys, n);
      RotateTimesPermutes(keys, n + 1);
    } else {
      assert r.keys == RotateTimes(keys, 0);
    }
  }

  /**
   * Request `j` carries what pass `j` sends; every request but the last came
   * from a pass that rotated; a call still retrying has used up every pass;
   * and an answer is the one the last pass decided on.
   */
  lemma {:induction false} RetryTrace<T>(keys: seq<string>, clientOf: seq<string> -> Option<string>,
                                        client: Option<string>, passes: seq<Pass<T>>)
    ensures var r := Retry(keys, clientOf, client, passes);
            forall j :: 0 <= j < |r.requests| ==> r.requests[j].payload == passes[j].payload
    ensures var r := Retry(keys, clientOf, client, passes);
            forall j :: 0 <= j < |r.requests| - 1 ==> passes[j].step == Rotate
    ensures var r := Retry(keys, clientOf, client, passes);
            r.outcome == StillRetrying ==> |r.requests| == |passes|
    ensures var r := Retry(keys, clientOf, client, passes);
            r.outcome.Returned? && r.outcome.answer.Some? ==>
              |r.requests| > 0 && passes[|r.requests| - 1].step == Done(r.outcome.answer)
  {
    RetryRequests(keys, clientOf, client, passes);
    RetryEnds(keys, clientOf, client, passes);
  }

  /** Request `j` carries what pass `j` sends, and every request but the last came from a pass that rotated. */
  lemma {:induction false} RetryRequests<T>(keys: seq<string>, clientOf: seq<string> -> Option<string>,
                                           client: Option<string>, passes: seq<Pass<T>>)
    ensures var r := Retry(keys, clientOf, client, passes);
            forall j :: 0 <= j < |r.requests| ==> r.requests[j].payload == passes[j].payload
                                                  && (j < |r.requests| - 1 ==> passes[j].step == Rotate)
    decreases |passes|
  {
    if client.Some? && passes != [] && passes[0].step.Rotate? && |keys| > 1 {
      var rotated := RotateLeft(keys);
      var next := clientOf(rotated);
      RetryAgain(keys, clientOf, client, passes);
      RetryRequests(rotated, clientOf, next, passes[1..]);
      var r := Retry(keys, clientOf, client, passes);
      var rest := Retry(rotated, clientOf, next, passes[1..]);
      forall j | 1 <= j < |r.requests|
        ensures r.requests[j] == rest.requests[j - 1] && passes[j] == passes[1..][j - 1]
      {
      }
    }
  }

  /** A call still retrying has used up every pass, and an answer is the one the last pass decided on. */
  lemma {:induction false} RetryEnds<T>(keys: seq<string>, clientOf: seq<string> -> Option<string>,
                                       client: Option<string>, passes: seq<Pass<T>>)
    ensures var r := Retry(keys, clientOf, client, passes);
            r.outcome == StillRetrying ==> |r.requests| == |passes|
    ensures var r := Retry(keys, clientOf, client, passes);
            r.outcome.Returned? && r.outcome.answer.Some? ==>
              |r.requests| > 0 && passes[|r.requests| - 1].step == Done(r.outcome.answer)
    decreases |passes|
  {
    if client.Some? && passes != [] && passes[0].step.Rotate? && |keys| > 1 {
      var rotated := RotateLeft(keys);
      var next := clientOf(rotated);
      RetryAgain(keys, clientOf, client, passes);
      RetryEnds(rotated, clientOf, next, passes[1..]);
      var rest := Retry(rotated, clientOf, next, passes[1..]);
      if rest.outcome.Returned? && rest.outcome.answer.Some? {
        assert passes[1..][|rest.requests| - 1] == passes[|rest.requests|];
      }
    }
  }

  /**
   * While every pass rotates and each rotated list gives a client for its
   * first key, request `j` uses the key at the front after `j` rotations;
   * when every pass rotates the call is still retrying after all of them.
   */
  lemma {:induction false} RetryCycles<T>(keys: seq<string>, clientOf: seq<string> -> Option<string>,
                                         passes: seq<Pass<T>>, n: nat)
    requires |keys| > 1
    requires forall m: nat :: clientOf(RotateTimes(keys, m)) == Some(RotateTimes(keys, m)[0])
    requires n <= |passes| && forall j :: 0 <= j < n ==> passes[j].step == Rotate
    ensures var r := Retry(keys, clientOf, Some(keys[0]), passes);
            |r.requests| >= n && forall j :: 0 <= j < n ==> r.requests[j].key == RotateTimes(keys, j)[0]
    ensures var r := Retry(keys, clientOf, Some(keys[0]), passes);
            n == |passes| ==> r.outcome == StillRetrying
    decreases n
  {
    if n > 0 {
      var rotated := RotateLeft(keys);
      ClientsAfterRotate(keys, clientOf);
      assert forall j :: 0 <= j < n - 1 ==> passes[1..][j] == passes[j + 1];
      RetryAgain(keys, clientOf, Some(keys[0]), passes);
      RetryCycles(rotated, clientOf, passes[1..], n - 1);
      var r := Retry(keys, clientOf, Some(keys[0]), passes);
      var rest := Retry(rotated, clientOf, Some(rotated[0]), passes[1..]);
      KeysAfterFirst(keys, r.requests, rest.requests, n);
    }
  }

  /** Requests sent with the first key and then with the keys of the rotated list use the front key after `j` rotations. */
  lemma KeysAfterFirst(keys: seq<string>, requests: seq<Request>, rest: seq<Request>, n: nat)
    requires |keys| > 1 && 0 < n && n - 1 <= |rest|
    requires requests != [] && requests[0].key == keys[0] && requests[1..] == rest
    requires forall j :: 0 <= j < n - 1 ==> rest[j].key == RotateTimes(RotateLeft(keys), j)[0]
    ensures forall j :: 0 <= j < n ==> requests[j].key == RotateTimes(keys, j)[0]
  {
    forall j | 0 <= j < n
      ensures requests[j].key == RotateTimes(keys, j)[0]
    {
      if j == 0 {
        assert RotateTimes(keys, 0) == keys;
      } else {
        assert requests[j] == rest[j - 1];
        FrontAfterOne(keys, j);
      }
    }
  }

  /** The front key after `j` rotations is the front key of the rotated list after one fewer. */
  lemma FrontAfterOne<T>(keys: seq<T>, j: nat)
    requires |keys| > 1 && j > 0
    ensures RotateTimes(keys, j)[0] == RotateTimes(RotateLeft(keys), j - 1)[0]
  {
    RotateTimesAfterOne(keys, j - 1);
  }

  /** When every rotation of `keys` gives a client for its first key, so does every rotation of the rotated list. */
  lemma ClientsAfterRotate(keys: seq<string>, clientOf: seq<string> -> Option<string>)
    requires |keys| > 1
    requires forall m: nat :: clientOf(RotateTimes(keys, m)) == Some(RotateTimes(keys, m)[0])
    ensures clientOf(RotateLeft(keys)) == Some(RotateLeft(keys)[0])
    ensures forall m: nat :: clientOf(RotateTimes(RotateLeft(keys), m)) == Some(RotateTimes(RotateLeft(keys), m)[0])
  {
    var rotated := RotateLeft(keys);
    assert RotateTimes(keys, 1) == rotated;
    forall m: nat
      ensures clientOf(RotateTimes(rotated, m)) == Some(RotateTimes(rotated, m)[0])
    {
      RotateTimesAfterOne(keys, m);
      assert clientOf(RotateTimes(keys, m + 1)) == Some(RotateTimes(keys, m + 1)[0]);
    }
  }

  /** In a run of failed passes every key is tried once, in list order, before any is tried again. */
  lemma {:induction false} RetryTriesEveryKey<T>(keys: seq<string>, clientOf: seq<string> -> Option<string>, passes: seq<Pass<T>>)
    requires |keys| > 1
    requires forall m: nat :: clientOf(RotateTimes(keys, m)) == Some(RotateTimes(keys, m)[0])
    requires |keys| <= |passes| && forall j :: 0 <= j < |keys| ==> passes[j].step == Rotate
    ensures var r := Retry(keys, clientOf, Some(keys[0]), passes);
            |r.requests| >= |keys| && forall j :: 0 <= j < |keys| ==> r.requests[j].key == keys[j]
  {
    RetryCycles(keys, clientOf, passes, |keys|);
    RotationCycles(keys);
  }

  // ---------------------------------------------------------------- choosing a key

  /**
   * `get_preferred_ai_key`: the first Cohere key when Cohere is preferred and
   * one is stored; otherwise the first ElevenLabs key, whatever the
   * preference; otherwise none.
   */
  function PreferredKey(cohere: seq<string>, elevenLabs: seq<string>, provider: string): (r: Option<string>)
    ensures r.Some? <==> (provider == Cohere && cohere != []) || elevenLabs != []
    ensures r.Some? ==> r.value in cohere || r.value in elevenLabs
    ensures provider == Cohere && cohere != [] ==> r == Some(cohere[0])
    ensures !(provider == Cohere && cohere != []) && elevenLabs != [] ==> r == Some(elevenLabs[0])
  {
    if provider == Cohere && cohere != [] then Some(cohere[0])
    else if elevenLabs != [] then Some(elevenLabs[0])
    else None
  }

  /** A store holding only ElevenLabs keys still yields a "preferred AI key": the first ElevenLabs key. */
  lemma {:induction false} ElevenLabsOnlyStillYieldsKey(elevenLabs: seq<string>, provider: string)
    requires elevenLabs != []
    ensures PreferredKey([], elevenLabs, provider) == Some(elevenLabs[0])
  {
  }

  /** `switch_ai_provider`: Cohere becomes ElevenLabs, everything else becomes Cohere. */
  function Switched(provider: string): (r: string)
    ensures r == Cohere || r == ElevenLabs
    ensures r == Cohere <==> provider != Cohere
  {
    if provider == Cohere then ElevenLabs else Cohere
  }

  /** Switching twice returns to a known provider. */
  lemma {:induction false} SwitchTwice(provider: string)
    requires provider == Cohere || provider == ElevenLabs
    ensures Switched(Switched(provider)) == provider
  {
  }

  /** What api_keys.json holds once parsed; a missing field reads as absent. */
  datatype KeyFile = KeyFile(cohereKeys: Option<seq<string>>, elevenLabsKeys: Option<seq<string>>, provider: Option<string>)

  class ApiConfig {
    var cohereKeys: seq<string>
    var elevenLabsKeys: seq<string>
    var preferredAiProvider: string

    /** `__init__` before it loads the key file: no keys, Cohere preferred. */
    constructor ()
      ensures cohereKeys == [] && elevenLabsKeys == [] && preferredAiProvider == Cohere
    {
      cohereKeys := [];
      elevenLabsKeys := [];
      preferredAiProvider := Cohere;
    }

    /**
     * `load_api_keys`: `file` is the parsed key file, or `None` when the
     * file is missing or cannot be read (the store is then left as it is).
     */
    method LoadApiKeys(file: Option<KeyFile>)
      modifies this
      ensures file.None? ==> cohereKeys == old(cohereKeys) && elevenLabsKeys == old(elevenLabsKeys)
                             && preferredAiProvider == old(preferredAiProvider)
      ensures file.Some? ==> cohereKeys == file.value.cohereKeys.GetOr([])
                             && elevenLabsKeys == file.value.elevenLabsKeys.GetOr([])
                             && preferredAiProvider == file.value.provider.GetOr(Cohere)
    {
      if file.Some? {
        cohereKeys := file.value.cohereKeys.GetOr([]);
        elevenLabsKeys := file.value.elevenLabsKeys.GetOr([]);
        preferredAiProvider := file.value.provider.GetOr(Cohere);
      }
    }

    function PreferredAiKey(): Option<string>
      reads this
    {
      PreferredKey(cohereKeys, elevenLabsKeys, preferredAiProvider)
    }

    /** `add_cohere_key`: append the key unless it is already stored. */
    method AddCohereKey(key: string)
      modifies this
      ensures cohereKeys == if key in old(cohereKeys) then old(cohereKeys) else old(cohereKeys) + [key]
      ensures key in cohereKeys
      ensures Distinct(old(cohereKeys)) ==> Distinct(cohereKeys)
      ensures elevenLabsKeys == old(elevenLabsKeys) && preferredAiProvider == old(preferredAiProvider)
    {
      if key !in cohereKeys {
        cohereKeys := cohereKeys + [key];
      }
    }

    /** `add_elevenlabs_key`: append the key unless it is already stored. */
    method AddElevenLabsKey(key: string)
      modifies this
      ensures elevenLabsKeys == if key in old(elevenLabsKeys) then old(elevenLabsKeys) else old(elevenLabsKeys) + [key]
      ensures key in elevenLabsKeys
      ensures Distinct(old(elevenLabsKeys)) ==> Distinct(elevenLabsKeys)
      ensures cohereKeys == old(cohereKeys) && preferredAiProvider == old(preferredAiProvider)
    {
      if key !in elevenLabsKeys {
        elevenLabsKeys := elevenLabsKeys + [key];
      }
    }

    /**
     * `remove_api_key`: drop the key at `index` of the named provider's list
     * when the index is in range; any other provider name or index changes
     * nothing.
     */
    method RemoveApiKey(provider: string, index: int)
      modifies this
      ensures provider == Cohere && 0 <= index < |old(cohereKeys)| ==>
                cohereKeys == old(cohereKeys[..index] + cohereKeys[index + 1..]) && elevenLabsKeys == old(elevenLabsKeys)
      ensures provider == ElevenLabs && 0 <= index < |old(elevenLabsKeys)| ==>
                elevenLabsKeys == old(elevenLabsKeys[..index] + elevenLabsKeys[index + 1..]) && cohereKeys == old(cohereKeys)
      ensures !(provider == Cohere && 0 <= index < |old(cohereKeys)|) && !(provider == ElevenLabs && 0 <= index < |old(elevenLabsKeys)|) ==>
                cohereKeys == old(cohereKeys) && elevenLabsKeys == old(elevenLabsKeys)
      ensures preferredAiProvider == old(preferredAiProvider)
      ensures Distinct(old(cohereKeys)) ==> Distinct(cohereKeys)
      ensures Distinct(old(elevenLabsKeys)) ==> Distinct(elevenLabsKeys)
    {
      if provider == Cohere && 0 <= index < |cohereKeys| {
        cohereKeys := cohereKeys[..index] + cohereKeys[index + 1..];
      } else if provider == ElevenLabs && 0 <= index < |elevenLabsKeys| {
        elevenLabsKeys := elevenLabsKeys[..index] + elevenLabsKeys[index + 1..];
      }
    }

    /** `switch_ai_provider` */
    method SwitchAiProvider()
      modifies this
      ensures preferredAiProvider == Switched(old(preferredAiProvider))
      ensures cohereKeys == old(cohereKeys) && elevenLabsKeys == old(elevenLabsKeys)
    {
      preferredAiProvider := if preferredAiProvider == Cohere then ElevenLabs else Cohere;
    }
  }

  /** `set_ai_provider`: Cohere is the only supported text provider. */
  method SetAiProvider(config: ApiConfig)
    modifies config
    ensures config.preferredAiProvider == Cohere
    ensures config.cohereKeys == old(config.cohereKeys) && config.elevenLabsKeys == old(config.elevenLabsKeys)
  {
    config.preferredAiProvider := Cohere;
  }
}
