/** `LiveAssistant` (pyrobbot/text_to_speech.py): the audio parameters webrtcvad
    accepts, the stream block size, and the listening loop that keeps a bounded
    window of voice-activity verdicts and stops once the share of speech in it falls
    below the threshold. The microphone, the VAD itself, the clock and the speech
    recogniser are oracles: each captured block arrives as a `Frame` holding the
    VAD verdict and whether the inactivity check was due at that moment. */
module LiveAssistant {
  import opened Wrappers

  const AllowedSampleRates: seq<int> := [8000, 16000, 32000, 48000]
  const AllowedFrameDurations: seq<int> := [10, 20, 30]

  /** The `ValueError` raised by `__post_init__`: which attribute, its allowed values, the value passed. */
  datatype ValueError = ValueError(attr: string, allowed: seq<int>, got: int)

  /** The dataclass fields that the modelled operations read. */
  datatype AssistantParams = AssistantParams(
    inactivityTimeoutSeconds: int,
    speechLikelihoodThreshold: real,
    sampleRate: int,
    frameDuration: int)

  /** `webrtcvad_restrictions`, in the order the dictionary lists them. */
  const Restrictions: seq<(string, seq<int>)> :=
    [("sample_rate", AllowedSampleRates), ("frame_duration", AllowedFrameDurations)]

  /** `getattr(self, attr)` for the two restricted attributes. */
  function RestrictedValue(p: AssistantParams, attr: string): int {
    if attr == "sample_rate" then p.sampleRate else p.frameDuration
  }

  /** The error `__post_init__` raises, if any: sample_rate is checked first. */
  function ValidationError(p: AssistantParams): (r: Option<ValueError>)
    ensures r.None? <==> p.sampleRate in AllowedSampleRates && p.frameDuration in AllowedFrameDurations
    ensures p.sampleRate !in AllowedSampleRates ==>
      r == Some(ValueError("sample_rate", AllowedSampleRates, p.sampleRate))
    ensures p.sampleRate in AllowedSampleRates && p.frameDuration !in AllowedFrameDurations ==>
      r == Some(ValueError("frame_duration", AllowedFrameDurations, p.frameDuration))
  {
    if p.sampleRate !in AllowedSampleRates then
      Some(ValueError("sample_rate", AllowedSampleRates, p.sampleRate))
    else if p.frameDuration !in AllowedFrameDurations then
      Some(ValueError("frame_duration", AllowedFrameDurations, p.frameDuration))
    else None
  }

  /** The validation loop of `__post_init__`, over the restrictions in order. */
  method PostInitValidate(p: AssistantParams) returns (error: Option<ValueError>)
    ensures error == ValidationError(p)
  {
    var i := 0;
    while i < |Restrictions|
      invariant 0 <= i <= |Restrictions|
      invariant i >= 1 ==> p.sampleRate in AllowedSampleRates
      invariant i >= 2 ==> p.frameDuration in AllowedFrameDurations
    {
      var (attr, allowed) := Restrictions[i];
      var passed := RestrictedValue(p, attr);
      if passed !in allowed {
        return Some(ValueError(attr, allowed, passed));
      }
      i := i + 1;
    }
    return None;
  }

  /** Python's `int(x)` of a quotient: truncation toward zero. The remainder
      `n - q * d` has the sign of `n` and is smaller than `d` in size. */
  function TruncDiv(n: int, d: int): (q: int)
    requires d > 0
    ensures n >= 0 ==> 0 <= n - q * d < d
    ensures n < 0 ==> -d < n - q * d <= 0
  {
    if n >= 0 then n / d else -((-n) / d)
  }

  /** The truncation property singles out one quotient: whatever integer meets it
      is `TruncDiv`'s result. */
  lemma TruncDivUnique(n: int, d: int, q: int)
    requires d > 0
    requires n >= 0 ==> 0 <= n - q * d < d
    requires n < 0 ==> -d < n - q * d <= 0
    ensures q == TruncDiv(n, d)
  {
    var t := TruncDiv(n, d);
    if q < t {
      MulGap(q, t, d);
    } else if q > t {
      MulGap(t, q, d);
    }
  }

  /** Two different multiples of `d` are at least `d` apart. */
  lemma MulGap(a: int, b: int, d: int)
    requires a < b && d > 0
    ensures a * d + d <= b * d
  {
    var k := b - a;
    assert b * d == a * d + k * d;
    assert k * d >= d by {
      assert k * d == (k - 1) * d + d;
      assert (k - 1) * d >= 0;
    }
  }

  /** `int((sample_rate * frame_duration) / 1000)`: samples per audio block. */
  function BlockSize(sampleRate: int, frameDuration: int): int {
    TruncDiv(sampleRate * frameDuration, 1000)
  }

  /** For every accepted pair the block size is exact: no sample is lost to truncation. */
  lemma BlockSizeExact(sampleRate: int, frameDuration: int)
    requires sampleRate in AllowedSampleRates && frameDuration in AllowedFrameDurations
    ensures BlockSize(sampleRate, frameDuration) * 1000 == sampleRate * frameDuration
    ensures BlockSize(sampleRate, frameDuration) == sampleRate / 1000 * frameDuration
  {
  }

  /** `int((1000.0 * inactivity_timeout_seconds) / frame_duration)`: the `maxlen` of the
      verdict window, i.e. how many blocks span the inactivity timeout. */
  function WindowCapacity(inactivityTimeoutSeconds: int, frameDuration: int): int
    requires frameDuration > 0
  {
    TruncDiv(1000 * inactivityTimeoutSeconds, frameDuration)
  }

  /** `deque.append` on a deque with the given `maxlen`: the verdict is added and the
      oldest one is dropped when the window is full. */
  function PushVerdict(window: seq<bool>, verdict: bool, maxlen: nat): (r: seq<bool>)
    requires |window| <= maxlen
    ensures |r| == if |window| + 1 <= maxlen then |window| + 1 else maxlen
  {
    if maxlen == 0 then []
    else if |window| < maxlen then window + [verdict]
    else (window + [verdict])[1..]
  }

  /** What the deque holds after the append is a suffix of the old contents followed
      by the new verdict. */
  lemma PushVerdictSuffix(window: seq<bool>, verdict: bool, maxlen: nat)
    requires |window| <= maxlen
    ensures var r := PushVerdict(window, verdict, maxlen); r == (window + [verdict])[|window| + 1 - |r|..]
  {
  }

  function CountTrue(window: seq<bool>): (n: nat)
    ensures n <= |window|
  {
    if window == [] then 0 else CountTrue(window[..|window| - 1]) + (if window[|window| - 1] then 1 else 0)
  }

  /** The share of speech verdicts in the window; 0 for an empty window. */
  function SpeechLikelihood(window: seq<bool>): (r: real)
    ensures 0.0 <= r <= 1.0
    ensures r == 0.0 <==> CountTrue(window) == 0
    ensures r == 1.0 <==> window != [] && CountTrue(window) == |window|
  {
    if |window| == 0 then 0.0
    else
      RatioBounds(CountTrue(window) as real, |window| as real);
      CountTrue(window) as real / |window| as real
  }

  /** A count out of a positive total gives a share between 0 and 1, which is 0 only
      for a zero count and 1 only for the full count. */
  lemma RatioBounds(c: real, n: real)
    requires 0.0 <= c <= n && n > 0.0
    ensures 0.0 <= c / n <= 1.0
    ensures c / n == 0.0 <==> c == 0.0
    ensures c / n == 1.0 <==> c == n
  {
    assert c / n * n == c;
  }

  /** One captured block: the VAD verdict and whether the inactivity check was due. */
  datatype Frame = Frame(isSpeech: bool, checkDue: bool)

  /** The loop variables of `listen`. */
  datatype ListenState = ListenState(window: seq<bool>, userIsSpeaking: bool, speechDetected: bool)

  function Verdicts(frames: seq<Frame>): (r: seq<bool>)
    ensures |r| == |frames|
  {
    if frames == [] then [] else Verdicts(frames[..|frames| - 1]) + [frames[|frames| - 1].isSpeech]
  }

  /** One pass of the loop body. */
  function ListenStep(s: ListenState, f: Frame, maxlen: nat, threshold: real): ListenState
    requires |s.window| <= maxlen
  {
    var w := PushVerdict(s.window, f.isSpeech, maxlen);
    if f.checkDue then
      var speaking := SpeechLikelihood(w) >= threshold;
      ListenState(w, speaking, s.speechDetected || speaking)
    else ListenState(w, s.userIsSpeaking, s.speechDetected)
  }

  /** The loop state after some blocks have arrived, and how many of them the loop took. */
  datatype Run = Run(state: ListenState, taken: nat)

  /** The loop state after the blocks in `frames` have arrived, and how many of them
      the loop took before it stopped. */
  function ListenRun(frames: seq<Frame>, maxlen: nat, threshold: real): (r: Run)
    ensures |r.state.window| <= maxlen && r.taken <= |frames|
    ensures r.state.userIsSpeaking ==> r.taken == |frames|
  {
    if frames == [] then Run(ListenState([], true, false), 0)
    else
      var r := ListenRun(frames[..|frames| - 1], maxlen, threshold);
      if !r.state.userIsSpeaking then r else Run(ListenStep(r.state, frames[|frames| - 1], maxlen, threshold), r.taken + 1)
  }

  /** The last `maxlen` elements of `v`, all of `v` when it is shorter: what a deque
      with that `maxlen` holds once the elements of `v` were appended to it in order. */
  function Recent(v: seq<bool>, maxlen: nat): (r: seq<bool>)
    ensures |r| == if |v| <= maxlen then |v| else maxlen
  {
    if |v| <= maxlen then v else v[|v| - maxlen..]
  }

  /** The window holds exactly the most recent verdicts of the blocks the loop took,
      at most `maxlen` of them: the oldest ones are the ones dropped. */
  lemma {:induction false} ListenWindowIsRecentVerdicts(frames: seq<Frame>, maxlen: nat, threshold: real)
    ensures var r := ListenRun(frames, maxlen, threshold);
      r.state.window == Recent(Verdicts(frames[..r.taken]), maxlen)
  {
    if frames != [] {
      ListenWindowIsRecentVerdicts(frames[..|frames| - 1], maxlen, threshold);
      ListenWindowStep(frames, maxlen, threshold);
    }
  }

  /** The induction step of `ListenWindowIsRecentVerdicts`: one more block. */
  lemma ListenWindowStep(frames: seq<Frame>, maxlen: nat, threshold: real)
    requires frames != []
    requires var init := frames[..|frames| - 1]; var r := ListenRun(init, maxlen, threshold);
      r.state.window == Recent(Verdicts(init[..r.taken]), maxlen)
    ensures var r := ListenRun(frames, maxlen, threshold);
      r.state.window == Recent(Verdicts(frames[..r.taken]), maxlen)
  {
    var init := frames[..|frames| - 1];
    var r := ListenRun(init, maxlen, threshold);
    assert init[..r.taken] == frames[..r.taken];
    ListenRunLast(frames, maxlen, threshold);
    if r.state.userIsSpeaking {
      assert frames[..r.taken + 1] == frames[..r.taken] + [frames[|frames| - 1]];
      WindowStepCore(frames[..r.taken], frames[|frames| - 1], r.state, maxlen, threshold);
    }
  }

  lemma WindowStepCore(taken: seq<Frame>, f: Frame, s: ListenState, maxlen: nat, threshold: real)
    requires s.window == Recent(Verdicts(taken), maxlen)
    ensures ListenStep(s, f, maxlen, threshold).window == Recent(Verdicts(taken + [f]), maxlen)
  {
    VerdictsAppend(taken, f);
    ListenStepKeepsRecent(s, Verdicts(taken), f, maxlen, threshold);
  }

  /** `ListenRun` on one more block: the loop takes it only while the user is speaking. */
  lemma ListenRunLast(frames: seq<Frame>, maxlen: nat, threshold: real)
    requires frames != []
    ensures var r := ListenRun(frames[..|frames| - 1], maxlen, threshold);
      ListenRun(frames, maxlen, threshold)
        == if r.state.userIsSpeaking then Run(ListenStep(r.state, frames[|frames| - 1], maxlen, threshold), r.taken + 1) else r
  {
  }

  lemma VerdictsAppend(frames: seq<Frame>, f: Frame)
    ensures Verdicts(frames + [f]) == Verdicts(frames) + [f.isSpeech]
  {
    assert (frames + [f])[..|frames|] == frames;
  }

  /** One pass of the loop keeps the window equal to the most recent verdicts. */
  lemma ListenStepKeepsRecent(s: ListenState, v: seq<bool>, f: Frame, maxlen: nat, threshold: real)
    requires s.window == Recent(v, maxlen)
    ensures ListenStep(s, f, maxlen, threshold).window == Recent(v + [f.isSpeech], maxlen)
  {
    PushRecent(v, f.isSpeech, maxlen);
  }

  /** Appending to a deque that holds the recent elements of `v` gives the recent
      elements of `v + [x]`. */
  lemma PushRecent(v: seq<bool>, x: bool, maxlen: nat)
    ensures PushVerdict(Recent(v, maxlen), x, maxlen) == Recent(v + [x], maxlen)
  {
    var w := Recent(v, maxlen);
    if maxlen > 0 && |v| > maxlen {
      assert (w + [x])[1..] == (v + [x])[|v| + 1 - maxlen..];
    }
  }

  /** The loop stops only at an inactivity check whose likelihood fell below the
      threshold; the blocks after it are never taken. */
  lemma {:induction false} ListenStopsAtFailedCheck(frames: seq<Frame>, maxlen: nat, threshold: real)
    ensures var Run(s, n) := ListenRun(frames, maxlen, threshold);
      (n == |frames| || !s.userIsSpeaking)
      && (!s.userIsSpeaking ==> n >= 1 && frames[n - 1].checkDue && SpeechLikelihood(s.window) < threshold)
      && ListenRun(frames[..n], maxlen, threshold) == Run(s, n)
  {
    if frames != [] {
      var init := frames[..|frames| - 1];
      ListenStopsAtFailedCheck(init, maxlen, threshold);
      var Run(s, n) := ListenRun(init, maxlen, threshold);
      assert init[..n] == frames[..n];
      if s.userIsSpeaking {
        assert frames[..n + 1] == frames;
      }
    }
  }

  /** Without any inactivity check the loop takes every block and never reports speech. */
  lemma {:induction false} ListenWithoutChecks(frames: seq<Frame>, maxlen: nat, threshold: real)
    requires forall k :: 0 <= k < |frames| ==> !frames[k].checkDue
    ensures var Run(s, n) := ListenRun(frames, maxlen, threshold);
      n == |frames| && s.userIsSpeaking && !s.speechDetected
  {
    if frames != [] {
      ListenWithoutChecks(frames[..|frames| - 1], maxlen, threshold);
    }
  }

  lemma {:induction false} CountTrueNone(window: seq<bool>)
    requires forall k :: 0 <= k < |window| ==> !window[k]
    ensures CountTrue(window) == 0
  {
    if window != [] {
      CountTrueNone(window[..|window| - 1]);
    }
  }

  /** With a positive threshold, blocks the VAD never marks as speech are never reported as speech. */
  lemma {:induction false} ListenSilenceNotDetected(frames: seq<Frame>, maxlen: nat, threshold: real)
    requires threshold > 0.0
    requires forall k :: 0 <= k < |frames| ==> !frames[k].isSpeech
    ensures var s := ListenRun(frames, maxlen, threshold).state;
      !s.speechDetected && forall k :: 0 <= k < |s.window| ==> !s.window[k]
  {
    if frames != [] {
      var init := frames[..|frames| - 1];
      ListenSilenceNotDetected(init, maxlen, threshold);
      var s := ListenRun(init, maxlen, threshold).state;
      if s.userIsSpeaking {
        var w := PushVerdict(s.window, false, maxlen);
        PushVerdictSuffix(s.window, false, maxlen);
        assert forall k :: 0 <= k < |w| ==> !w[k];
        CountTrueNone(w);
      }
    }
  }

  /** `listen`: returns "" when no speech was detected, else the recogniser's text. */
  datatype ListenError = DequeMaxlenError

  method Listen(p: AssistantParams, frames: seq<Frame>, recognised: string)
    returns (result: Result<string, ListenError>, taken: nat)
    requires ValidationError(p).None?
    ensures WindowCapacity(p.inactivityTimeoutSeconds, p.frameDuration) < 0 ==>
      result == Failure(DequeMaxlenError) && taken == 0
    ensures WindowCapacity(p.inactivityTimeoutSeconds, p.frameDuration) >= 0 ==>
      var Run(s, n) := ListenRun(frames, WindowCapacity(p.inactivityTimeoutSeconds, p.frameDuration) as nat,
                              p.speechLikelihoodThreshold);
      taken == n && result == Success(if s.speechDetected then recognised else "")
  {
    var capacity := WindowCapacity(p.inactivityTimeoutSeconds, p.frameDuration);
    if capacity < 0 {
      return Failure(DequeMaxlenError), 0;
    }
    var maxlen := capacity as nat;
    var window: seq<bool> := [];
    var userIsSpeaking := true;
    var speechDetected := false;
    var i := 0;
    while userIsSpeaking && i < |frames|
      invariant 0 <= i <= |frames|
      invariant ListenRun(frames[..i], maxlen, p.speechLikelihoodThreshold)
        == Run(ListenState(window, userIsSpeaking, speechDetected), i)
    {
      assert frames[..i + 1][..i] == frames[..i];
      window := PushVerdict(window, frames[i].isSpeech, maxlen);
      if frames[i].checkDue {
        var likelihood := SpeechLikelihood(window);
        userIsSpeaking := likelihood >= p.speechLikelihoodThreshold;
        if userIsSpeaking {
          speechDetected := true;
        }
      }
      i := i + 1;
    }
    StoppedRunIsFinal(frames, i, maxlen, p.speechLikelihoodThreshold);
    taken := i;
    result := Success(if speechDetected then recognised else "");
  }

  /** Once the loop has stopped, later blocks change nothing. */
  lemma {:induction false} StoppedRunIsFinal(frames: seq<Frame>, i: nat, maxlen: nat, threshold: real)
    requires i <= |frames|
    requires var Run(s, n) := ListenRun(frames[..i], maxlen, threshold); n == i && (i == |frames| || !s.userIsSpeaking)
    ensures ListenRun(frames, maxlen, threshold) == ListenRun(frames[..i], maxlen, threshold)
    decreases |frames| - i
  {
    if i < |frames| {
      var j := |frames| - 1;
      if i < j {
        assert frames[..j][..i] == frames[..i];
        StoppedRunIsFinal(frames[..j], i, maxlen, threshold);
      }
      assert frames[..j] == frames[..|frames| - 1];
      if i == j {
        assert frames[..i] == frames[..|frames| - 1];
      }
    } else {
      assert frames[..i] == frames;
    }
  }
}
