/**
 * The blow game screen (example.js): a loudness loop that raises `progress`
 * by 10 per loud sample up to 100, a countdown that raises `timeProgress` by
 * 20 per tick up to 100, and a list of saved recordings.
 *
 * Each `setInterval` callback is a tick method; the platform calls (audio
 * mode, recorder, `fetch` of the file to read its size) are inputs.
 */
module BlowGame {
  import opened Options

  const BLOW_THRESHOLD: int := 5000
  const PROGRESS_INCREASE: int := 10
  const MAX_PROGRESS: int := 100
  /** The countdown adds 20 per tick: `maxTime / 5` ms per tick, 5 steps to 100. */
  const TIME_STEP: int := 20
  const TIME_FULL: int := 100

  /** A recorder handle; `uri` is what its `getURI()` answers, possibly nothing. */
  datatype Recording = Recording(uri: Option<string>)

  /** One saved entry, `{ uri }`. */
  datatype Entry = Entry(uri: string)

  /** How the awaited part of `startListening` ended. */
  datatype StartOutcome =
    | AudioModeFailed               // setAudioModeAsync threw: no recorder yet
    | RecorderFailed(rec: Recording) // the recorder was created, then prepare/start threw
    | Started(rec: Recording)        // recording; both interval loops are started

  /** The value `increaseProgress` writes into `progress`. */
  function Increased(p: int): (r: int)
    ensures p <= r
    ensures p <= MAX_PROGRESS ==> r <= MAX_PROGRESS
    ensures p + PROGRESS_INCREASE <= MAX_PROGRESS ==> r == p + PROGRESS_INCREASE
    ensures p < MAX_PROGRESS < p + PROGRESS_INCREASE ==> r == MAX_PROGRESS
    ensures MAX_PROGRESS <= p ==> r == p
  {
    if p < MAX_PROGRESS then
      var next := p + PROGRESS_INCREASE;
      if next > MAX_PROGRESS then MAX_PROGRESS else next
    else
      p
  }

  /** True when `increaseProgress`, called at progress `p`, also stops listening. */
  predicate TriggersStop(p: int)
    ensures TriggersStop(p) <==> p < MAX_PROGRESS && Increased(p) == MAX_PROGRESS
  {
    p < MAX_PROGRESS && p + PROGRESS_INCREASE >= MAX_PROGRESS
  }

  /** One loudness decision: only a size strictly above the threshold counts. */
  function AfterSample(p: int, audioSize: int): (r: int)
    ensures p <= r
    ensures r != p ==> audioSize > BLOW_THRESHOLD
    ensures p < MAX_PROGRESS ==> (p < r <==> audioSize > BLOW_THRESHOLD)
  {
    if audioSize > BLOW_THRESHOLD then Increased(p) else p
  }

  /** Progress after a run of loudness samples, each taken while a URI was present. */
  function ProgressAfter(p: int, sizes: seq<int>): (r: int)
    ensures p <= r
    ensures p <= MAX_PROGRESS ==> r <= MAX_PROGRESS
    decreases |sizes|
  {
    if sizes == [] then p else ProgressAfter(AfterSample(p, sizes[0]), sizes[1..])
  }

  function Min(a: int, b: int): int
  {
    if a <= b then a else b
  }

  /** Every sample is loud enough to count. */
  predicate AllLoud(sizes: seq<int>)
  {
    forall i :: 0 <= i < |sizes| ==> sizes[i] > BLOW_THRESHOLD
  }

  /** From any valid progress, k loud samples add 10 each, capped at 100. */
  lemma {:induction false} LoudRun(p: int, sizes: seq<int>)
    requires 0 <= p <= MAX_PROGRESS
    requires AllLoud(sizes)
    ensures ProgressAfter(p, sizes) == Min(p + PROGRESS_INCREASE * |sizes|, MAX_PROGRESS)
    decreases |sizes|
  {
    if sizes != [] {
      LoudRun(AfterSample(p, sizes[0]), sizes[1..]);
    }
  }

  /** From 0, of a run of loud samples exactly the tenth one triggers the stop. */
  lemma TenthLoudSampleStops(sizes: seq<int>, i: nat)
    requires AllLoud(sizes)
    requires i < |sizes|
    ensures ProgressAfter(0, sizes[..i]) == Min(PROGRESS_INCREASE * i, MAX_PROGRESS)
    ensures TriggersStop(ProgressAfter(0, sizes[..i])) <==> i == 9
    ensures i == 9 ==> Increased(ProgressAfter(0, sizes[..i])) == MAX_PROGRESS
  {
    LoudRun(0, sizes[..i]);
  }

  /** Samples at or below the threshold never move progress: there is no decay. */
  lemma {:induction false} QuietRunKeepsProgress(p: int, sizes: seq<int>)
    requires forall i :: 0 <= i < |sizes| ==> sizes[i] <= BLOW_THRESHOLD
    ensures ProgressAfter(p, sizes) == p
    decreases |sizes|
  {
    if sizes != [] {
      QuietRunKeepsProgress(AfterSample(p, sizes[0]), sizes[1..]);
    }
  }

  /** The countdown updater's answer: the new `timeProgress` and whether it stops. */
  datatype TimerStep = TimerStep(next: int, stop: bool)

  /** A countdown value the timer can reach: a multiple of 20 in [0, 100]. */
  predicate TimeInRange(t: int)
  {
    0 <= t <= TIME_FULL && t % TIME_STEP == 0
  }

  /** The `setTimeProgress` updater of the countdown. */
  function TimerNext(prev: int): (r: TimerStep)
    ensures r.stop <==> prev >= TIME_FULL
    ensures r.stop ==> r.next == TIME_FULL
    ensures !r.stop ==> r.next == prev + TIME_STEP
    ensures TimeInRange(prev) ==> TimeInRange(r.next)
  {
    if prev >= TIME_FULL then TimerStep(TIME_FULL, true) else TimerStep(prev + TIME_STEP, false)
  }

  /** `timeProgress` after n ticks of the countdown. */
  function TimeAfter(t: int, n: nat): int
    decreases n
  {
    if n == 0 then t else TimeAfter(TimerNext(t).next, n - 1)
  }

  /** From 0 the countdown reads 20·i after i ticks and stops on the sixth tick. */
  lemma {:induction false} CountdownFromZero(i: nat)
    requires i <= 5
    ensures TimeAfter(0, i) == TIME_STEP * i
    ensures TimerNext(TimeAfter(0, i)).stop <==> i == 5
  {
    if i > 0 {
      CountdownFromZero(i - 1);
      TimeAfterLast(0, i - 1);
    }
  }

  /** Unrolls `TimeAfter` from the far end. */
  lemma {:induction false} TimeAfterLast(t: int, n: nat)
    ensures TimeAfter(t, n + 1) == TimerNext(TimeAfter(t, n)).next
    decreases n
  {
    if n > 0 {
      TimeAfterLast(TimerNext(t).next, n - 1);
    }
  }

  /** Any number of ticks keeps the countdown in range. */
  lemma {:induction false} CountdownStaysInRange(t: int, n: nat)
    requires TimeInRange(t)
    ensures TimeInRange(TimeAfter(t, n))
    decreases n
  {
    if n > 0 {
      CountdownStaysInRange(TimerNext(t).next, n - 1);
    }
  }

  /** JavaScript truthiness of a URI: present and not the empty string. */
  predicate HasUri(uri: Option<string>)
  {
    uri.Some? && uri.value != ""
  }

  /** The list after `saveRecording(uri)`. */
  function Saved(recordings: seq<Entry>, uri: Option<string>): (r: seq<Entry>)
    ensures !HasUri(uri) ==> r == recordings
    ensures HasUri(uri) ==> |r| == |recordings| + 1 && r[..|recordings|] == recordings
    ensures HasUri(uri) ==> r[|recordings|] == Entry(uri.value)
  {
    if HasUri(uri) then recordings + [Entry(uri.value)] else recordings
  }

  /**
   * The list after `stopListening`: `unloaded` tells whether
   * `stopAndUnloadAsync` resolved; when it threw, nothing is saved.
   */
  function SavedOnStop(recordings: seq<Entry>, current: Option<Recording>, unloaded: bool): (r: seq<Entry>)
    ensures |r| == |recordings| + (if unloaded && current.Some? && HasUri(current.value.uri) then 1 else 0)
    ensures r[..|recordings|] == recordings
    ensures |r| > |recordings| ==> r[|recordings|] == Entry(current.value.uri.value)
  {
    if unloaded && current.Some? then Saved(recordings, current.value.uri) else recordings
  }

  /** `recordingRef.current` after `stopListening`: kept only when unloading threw. */
  function KeptOnStop(current: Option<Recording>, unloaded: bool): Option<Recording>
  {
    if unloaded then None else current
  }

  /** A loudness tick that goes on to `increaseProgress`. */
  predicate SampleCounts(current: Option<Recording>, audioSize: int)
  {
    current.Some? && HasUri(current.value.uri) && audioSize > BLOW_THRESHOLD
  }

  class BlowGameScreen {
    var isListening: bool
    var progress: int
    var timeProgress: int
    var recordings: seq<Entry>
    /** `recordingRef.current` */
    var current: Option<Recording>
    /** How many loudness intervals are still set. */
    var blowLoops: nat
    /** How many countdown intervals are still set. */
    var timers: nat

    ghost predicate Valid()
      reads this
    {
      0 <= progress <= MAX_PROGRESS && TimeInRange(timeProgress)
    }

    constructor ()
      ensures Valid()
      ensures !isListening && progress == 0 && timeProgress == 0
      ensures recordings == [] && current == None && blowLoops == 0 && timers == 0
    {
      isListening, progress, timeProgress := false, 0, 0;
      recordings, current := [], None;
      blowLoops, timers := 0, 0;
    }

    /** The start button (disabled while listening): reset, record, start both loops. */
    method StartListening(outcome: StartOutcome)
      requires Valid() && !isListening
      modifies this
      ensures Valid()
      ensures isListening && progress == 0 && timeProgress == 0
      ensures recordings == old(recordings)
      ensures current == if outcome.AudioModeFailed? then old(current) else Some(outcome.rec)
      ensures blowLoops == if outcome.Started? then old(blowLoops) + 1 else old(blowLoops)
      ensures timers == if outcome.Started? then old(timers) + 1 else old(timers)
    {
      isListening, progress, timeProgress := true, 0, 0;
      match outcome {
        case AudioModeFailed =>
        case RecorderFailed(rec) =>
          current := Some(rec);
        case Started(rec) =>
          current := Some(rec);
          blowLoops, timers := blowLoops + 1, timers + 1;
      }
    }

    /** `saveRecording`: append `{ uri }` when the URI is truthy. */
    method SaveRecording(uri: Option<string>)
      modifies this
      ensures recordings == Saved(old(recordings), uri)
      ensures isListening == old(isListening) && progress == old(progress)
      ensures timeProgress == old(timeProgress) && current == old(current)
      ensures blowLoops == old(blowLoops) && timers == old(timers)
    {
      if HasUri(uri) {
        recordings := recordings + [Entry(uri.value)];
      }
    }

    /**
     * `stopListening`: stop listening; if there is a recorder, unload it,
     * then save its URI and drop it. `unloaded` is false when
     * `stopAndUnloadAsync` threw: the rest of the call is skipped.
     */
    method StopListening(unloaded: bool)
      modifies this
      ensures !isListening
      ensures current == KeptOnStop(old(current), unloaded)
      ensures recordings == SavedOnStop(old(recordings), old(current), unloaded)
      ensures progress == old(progress) && timeProgress == old(timeProgress)
      ensures blowLoops == old(blowLoops) && timers == old(timers)
    {
      isListening := false;
      if current.Some? {
        if !unloaded {
          return;
        }
        SaveRecording(current.value.uri);
        current := None;
      }
    }

    /** `increaseProgress`: +10 capped at 100; the call that reaches 100 stops listening. */
    method IncreaseProgress(unloaded: bool)
      requires Valid()
      modifies this
      ensures Valid()
      ensures old(progress) >= MAX_PROGRESS ==> unchanged(this)
      ensures progress == Increased(old(progress))
      ensures isListening == (old(isListening) && !TriggersStop(old(progress)))
      ensures current == if TriggersStop(old(progress)) then KeptOnStop(old(current), unloaded) else old(current)
      ensures recordings == if TriggersStop(old(progress)) then SavedOnStop(old(recordings), old(current), unloaded) else old(recordings)
      ensures timeProgress == old(timeProgress) && blowLoops == old(blowLoops) && timers == old(timers)
    {
      if progress < MAX_PROGRESS {
        var newProgress := progress + PROGRESS_INCREASE;
        progress := if newProgress > MAX_PROGRESS then MAX_PROGRESS else newProgress;
        if newProgress >= MAX_PROGRESS {
          StopListening(unloaded);
        }
      }
    }

    /**
     * One tick of the loudness loop (every 500 ms). `audioSize` is the size
     * the fetched recording file reports; `unloaded` is how unloading goes
     * if this tick stops listening. A tick while not listening clears its
     * interval; a tick with no recorder throws inside the callback and
     * changes nothing; a tick whose recorder has no truthy URI returns early.
     */
    method AnalyzeTick(audioSize: int, unloaded: bool)
      requires Valid() && blowLoops > 0
      modifies this
      ensures Valid()
      ensures blowLoops == if old(isListening) then old(blowLoops) else old(blowLoops) - 1
      ensures !old(isListening) || !SampleCounts(old(current), audioSize) ==>
        progress == old(progress) && isListening == old(isListening) &&
        current == old(current) && recordings == old(recordings)
      ensures old(isListening) && SampleCounts(old(current), audioSize) ==>
        progress == Increased(old(progress)) &&
        isListening == !TriggersStop(old(progress)) &&
        current == (if TriggersStop(old(progress)) then KeptOnStop(old(current), unloaded) else old(current)) &&
        recordings == (if TriggersStop(old(progress)) then SavedOnStop(old(recordings), old(current), unloaded) else old(recordings))
      ensures timeProgress == old(timeProgress) && timers == old(timers)
    {
      if !isListening {
        blowLoops := blowLoops - 1;
        return;
      }
      if current.None? {
        return;
      }
      var uri := current.value.uri;
      if !HasUri(uri) {
        return;
      }
      if audioSize > BLOW_THRESHOLD {
        IncreaseProgress(unloaded);
      }
    }

    /**
     * One tick of the countdown (every second): +20, or at 100 clear itself
     * and stop listening; `unloaded` is how unloading goes on that stop.
     */
    method TimerTick(unloaded: bool)
      requires Valid() && timers > 0
      modifies this
      ensures Valid()
      ensures timeProgress == TimerNext(old(timeProgress)).next
      ensures timers == if old(timeProgress) >= TIME_FULL then old(timers) - 1 else old(timers)
      ensures isListening == (old(isListening) && old(timeProgress) < TIME_FULL)
      ensures current == if old(timeProgress) >= TIME_FULL then KeptOnStop(old(current), unloaded) else old(current)
      ensures recordings == if old(timeProgress) >= TIME_FULL then SavedOnStop(old(recordings), old(current), unloaded) else old(recordings)
      ensures progress == old(progress) && blowLoops == old(blowLoops)
    {
      if timeProgress >= TIME_FULL {
        timers := timers - 1;
        StopListening(unloaded);
        timeProgress := TIME_FULL;
      } else {
        timeProgress := timeProgress + TIME_STEP;
      }
    }
  }
}
