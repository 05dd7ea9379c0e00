/**
 * The "turn off by blowing" screen (code/original2withmusicMic.js): a polling
 * loop reads the recorder's metering every 100 ms and moves a progress bar up
 * on a loud reading and down otherwise (a leaky integrator); reaching the top
 * turns the alarm off and stops all audio.
 *
 * Progress is kept exactly as an integer number of twentieths: the source's
 * MAX_PROGRESS 1 is 20, PROGRESS_INCREMENT 0.1 is 2 and the decay
 * PROGRESS_INCREMENT / 2 is 1. Metering (dBFS) is a real number.
 */
module MicMonitor {
  import opened Options

  const MAX_PROGRESS: int := 20
  const PROGRESS_INCREMENT: int := 2
  const DECAY: int := 1
  const BLOW_THRESHOLD: real := -30.0

  /** A progress value the bar can show: 0 ..= MAX_PROGRESS. */
  predicate InRange(p: int)
  {
    0 <= p <= MAX_PROGRESS
  }

  /** `Math.min(prev + PROGRESS_INCREMENT, MAX_PROGRESS)` */
  function Raised(p: int): (r: int)
    ensures r <= MAX_PROGRESS && r <= p + PROGRESS_INCREMENT
    ensures r == p + PROGRESS_INCREMENT || r == MAX_PROGRESS
    ensures InRange(p) ==> InRange(r) && p <= r
  {
    if p + PROGRESS_INCREMENT <= MAX_PROGRESS then p + PROGRESS_INCREMENT else MAX_PROGRESS
  }

  /** `Math.max(prev - PROGRESS_INCREMENT / 2, 0)` */
  function Decayed(p: int): (r: int)
    ensures 0 <= r && p - DECAY <= r
    ensures r == p - DECAY || r == 0
    ensures InRange(p) ==> InRange(r) && r <= p
    ensures p == 0 ==> r == 0
  {
    if p - DECAY >= 0 then p - DECAY else 0
  }

  /** A reading counts as a blow only when strictly above the threshold. */
  predicate IsBlow(metering: real)
  {
    metering > BLOW_THRESHOLD
  }

  /** The progress a valid reading leads to. */
  function NextProgress(p: int, metering: real): (r: int)
    ensures IsBlow(metering) ==> r == Raised(p)
    ensures !IsBlow(metering) ==> r == Decayed(p)
    ensures InRange(p) ==> InRange(r)
  {
    if IsBlow(metering) then Raised(p) else Decayed(p)
  }

  /** True when a reading at progress `p` reaches the top and turns the alarm off. */
  predicate Completes(p: int, metering: real)
    ensures Completes(p, metering) ==> NextProgress(p, metering) == MAX_PROGRESS
    ensures InRange(p) && IsBlow(metering) ==> (Completes(p, metering) <==> p >= MAX_PROGRESS - PROGRESS_INCREMENT)
    ensures !IsBlow(metering) ==> !Completes(p, metering)
  {
    IsBlow(metering) && Raised(p) >= MAX_PROGRESS
  }

  /** Progress after a run of valid readings, one per tick. */
  function ProgressAfter(p: int, readings: seq<real>): (r: int)
    ensures InRange(p) ==> InRange(r)
    decreases |readings|
  {
    if readings == [] then p else ProgressAfter(NextProgress(p, readings[0]), readings[1..])
  }

  /** Unrolls `ProgressAfter` from the far end. */
  lemma {:induction false} ProgressAfterSnoc(p: int, readings: seq<real>, m: real)
    ensures ProgressAfter(p, readings + [m]) == NextProgress(ProgressAfter(p, readings), m)
    decreases |readings|
  {
    if readings == [] {
      assert [] + [m] == [m];
    } else {
      assert (readings + [m])[1..] == readings[1..] + [m];
      ProgressAfterSnoc(NextProgress(p, readings[0]), readings[1..], m);
    }
  }

  /** Quiet readings from 0 leave the bar at 0: the decay floors at zero. */
  lemma {:induction false} QuietRunStaysAtZero(readings: seq<real>)
    requires forall i :: 0 <= i < |readings| ==> !IsBlow(readings[i])
    ensures ProgressAfter(0, readings) == 0
    decreases |readings|
  {
    if readings != [] {
      QuietRunStaysAtZero(readings[1..]);
    }
  }

  /** From 0, i blows (i <= 10) give 2·i, i.e. 0.1 per blow. */
  lemma {:induction false} BlowRunFromZero(readings: seq<real>)
    requires |readings| <= MAX_PROGRESS / PROGRESS_INCREMENT
    requires forall i :: 0 <= i < |readings| ==> IsBlow(readings[i])
    ensures ProgressAfter(0, readings) == PROGRESS_INCREMENT * |readings|
    decreases |readings|
  {
    if readings != [] {
      var last := |readings| - 1;
      assert readings == readings[..last] + [readings[last]];
      BlowRunFromZero(readings[..last]);
      ProgressAfterSnoc(0, readings[..last], readings[last]);
    }
  }

  /** Of a run of blows from 0, exactly the tenth (ceil(1 / 0.1)) completes. */
  lemma TenthBlowCompletes(readings: seq<real>, i: nat)
    requires forall k :: 0 <= k < |readings| ==> IsBlow(readings[k])
    requires i < |readings| && i <= 9
    ensures Completes(ProgressAfter(0, readings[..i]), readings[i]) <==> i == 9
  {
    BlowRunFromZero(readings[..i]);
  }

  /**
   * Alternating blow, quiet from 0 gains 0.05 per pair: the integrator creeps
   * up. The bound keeps every blow of the run short of the top.
   */
  lemma {:induction false} AlternatingRunCreepsUp(readings: seq<real>, j: nat)
    requires j <= MAX_PROGRESS - PROGRESS_INCREMENT
    requires |readings| == 2 * j
    requires forall i :: 0 <= i < j ==> IsBlow(readings[2 * i]) && !IsBlow(readings[2 * i + 1])
    ensures ProgressAfter(0, readings) == j
    decreases j
  {
    if j > 0 {
      var prefix := readings[..2 * (j - 1)];
      forall i | 0 <= i < j - 1
        ensures IsBlow(prefix[2 * i]) && !IsBlow(prefix[2 * i + 1])
      {
        assert prefix[2 * i] == readings[2 * i] && prefix[2 * i + 1] == readings[2 * i + 1];
      }
      AlternatingRunCreepsUp(prefix, j - 1);
      assert IsBlow(readings[2 * (j - 1)]) && !IsBlow(readings[2 * (j - 1) + 1]);
      assert readings[..2 * j - 1] == prefix + [readings[2 * j - 2]];
      assert readings == readings[..2 * j - 1] + [readings[2 * j - 1]];
      ProgressAfterSnoc(0, prefix, readings[2 * j - 2]);
      ProgressAfterSnoc(0, readings[..2 * j - 1], readings[2 * j - 1]);
    }
  }

  /**
   * Alternating blow, quiet from 0: no reading of the first 18 pairs turns
   * the alarm off, and the blow after them does (the 37th reading).
   */
  lemma AlternatingRunCompletes(readings: seq<real>, m: real)
    requires |readings| == 2 * (MAX_PROGRESS - PROGRESS_INCREMENT)
    requires forall i :: 0 <= i < MAX_PROGRESS - PROGRESS_INCREMENT ==>
      IsBlow(readings[2 * i]) && !IsBlow(readings[2 * i + 1])
    requires IsBlow(m)
    ensures forall k :: 0 <= k < |readings| ==> !Completes(ProgressAfter(0, readings[..k]), readings[k])
    ensures ProgressAfter(0, readings) == MAX_PROGRESS - PROGRESS_INCREMENT
    ensures Completes(ProgressAfter(0, readings), m)
  {
    AlternatingRunCreepsUp(readings, MAX_PROGRESS - PROGRESS_INCREMENT);
    forall k | 0 <= k < |readings|
      ensures !Completes(ProgressAfter(0, readings[..k]), readings[k])
    {
      var j := k / 2;
      if k % 2 == 0 {
        var prefix := readings[..k];
        forall i | 0 <= i < j
          ensures IsBlow(prefix[2 * i]) && !IsBlow(prefix[2 * i + 1])
        {
          assert prefix[2 * i] == readings[2 * i] && prefix[2 * i + 1] == readings[2 * i + 1];
        }
        AlternatingRunCreepsUp(prefix, j);
      } else {
        assert k == 2 * j + 1;
        assert !IsBlow(readings[2 * j + 1]);
      }
    }
  }

  /** What one `getStatusAsync()` call gave the polling callback. */
  datatype Status =
    | StatusError                                     // the call threw
    | Status(isRecording: bool, metering: Option<real>)

  /** The reading a status offers, or nothing when the tick is ignored. */
  function Reading(status: Status): Option<real>
  {
    if status.Status? && status.isRecording then status.metering else None
  }

  /** An opaque recorder handle. */
  datatype Recording = Recording(id: nat)

  /** An opaque handle of the looping background music. */
  datatype Sound = Sound(id: nat)

  /** How the awaited part of `startRecording` ended. */
  datatype StartOutcome =
    | AudioModeFailed                          // setAudioModeAsync threw
    | MusicFailed                              // Sound.createAsync threw
    | RecorderFailed(music: Sound)             // music playing, prepare/start of the recorder threw
    | Started(music: Sound, rec: Recording)    // recording; monitoring starts

  /**
   * The music slot after `stopAllAudio`: `musicStopped` tells whether
   * `stopAsync` and `unloadAsync` on the music both resolved; when one threw,
   * the slot is not cleared.
   */
  function MusicAfterStop(sound: Option<Sound>, musicStopped: bool): Option<Sound>
  {
    if sound.Some? && !musicStopped then sound else None
  }

  class TurnOffScreen {
    /** In twentieths: 20 is the source's 1. */
    var progress: int
    var isTurnedOff: bool
    var recording: Option<Recording>
    /** `backgroundSoundRef.current` */
    var backgroundSound: Option<Sound>
    /** `isMounted.current` */
    var isMounted: bool
    /** Whether the polling interval is set. */
    var monitoring: bool

    ghost predicate Valid()
      reads this
    {
      && InRange(progress)
      && (isTurnedOff ==> progress == MAX_PROGRESS && !monitoring)
      && (monitoring && isMounted ==> recording.Some?)
    }

    constructor ()
      ensures Valid()
      ensures progress == 0 && !isTurnedOff && recording == None && backgroundSound == None
      ensures isMounted && !monitoring
    {
      progress, isTurnedOff := 0, false;
      recording, backgroundSound := None, None;
      isMounted, monitoring := true, false;
    }

    /**
     * `stopAllAudio`: the recording slot ends up empty, and so does the music
     * slot unless stopping the music threw (`musicStopped` false), in which
     * case the call rejects (`ok` false) and the music keeps its slot.
     */
    method StopAllAudio(musicStopped: bool) returns (ok: bool)
      modifies this
      ensures ok <==> !(old(backgroundSound).Some? && !musicStopped)
      ensures recording == None
      ensures backgroundSound == MusicAfterStop(old(backgroundSound), musicStopped)
      ensures ok ==> backgroundSound == None
      ensures progress == old(progress) && isTurnedOff == old(isTurnedOff)
      ensures isMounted == old(isMounted) && monitoring == old(monitoring)
    {
      if recording.Some? {
        recording := None;
      }
      if backgroundSound.Some? {
        if !musicStopped {
          return false;
        }
        backgroundSound := None;
      }
      return true;
    }

    /**
     * The Start button, shown only before the alarm is turned off and enabled
     * only while there is no recording. Progress is not reset. When stopping
     * the previous music throws (`musicStopped` false while music is set),
     * the catch swallows it and nothing else happens.
     */
    method StartRecording(outcome: StartOutcome, musicStopped: bool)
      requires Valid() && isMounted && !isTurnedOff && recording.None?
      modifies this
      ensures Valid()
      ensures old(backgroundSound).Some? && !musicStopped ==>
        recording == None && backgroundSound == old(backgroundSound) && !monitoring
      ensures old(backgroundSound).None? || musicStopped ==>
        recording == (if outcome.Started? then Some(outcome.rec) else None) &&
        backgroundSound == (if outcome.Started? || outcome.RecorderFailed? then Some(outcome.music) else None) &&
        (monitoring <==> outcome.Started?)
      ensures progress == old(progress) && !isTurnedOff && isMounted
    {
      var stopped := StopAllAudio(musicStopped);
      if !stopped {
        return;
      }
      match outcome {
        case AudioModeFailed =>
        case MusicFailed =>
        case RecorderFailed(music) =>
          backgroundSound := Some(music);
        case Started(music, rec) =>
          backgroundSound := Some(music);
          recording := Some(rec);
          monitoring := true;
      }
    }

    /** The effect's cleanup on unmount; a rejection of `stopAllAudio` is not handled. */
    method Unmount(musicStopped: bool)
      requires Valid()
      modifies this
      ensures Valid()
      ensures !isMounted && recording == None
      ensures backgroundSound == MusicAfterStop(old(backgroundSound), musicStopped)
      ensures progress == old(progress) && isTurnedOff == old(isTurnedOff) && monitoring == old(monitoring)
    {
      isMounted := false;
      var _ := StopAllAudio(musicStopped);
    }

    /**
     * One tick of the polling interval; `musicStopped` is how stopping the
     * music goes if this tick turns the alarm off (a rejection there is not
     * handled).
     */
    method MonitorTick(status: Status, musicStopped: bool)
      requires Valid() && monitoring
      modifies this
      ensures Valid()
      // after unmount: stop polling, touch nothing else
      ensures !old(isMounted) ==>
        !monitoring && progress == old(progress) && isTurnedOff == old(isTurnedOff) &&
        recording == old(recording) && backgroundSound == old(backgroundSound)
      // a failed status call stops polling and keeps progress
      ensures old(isMounted) && status.StatusError? ==>
        !monitoring && progress == old(progress) && isTurnedOff == old(isTurnedOff) &&
        recording == old(recording) && backgroundSound == old(backgroundSound)
      // not recording, or no metering: the tick is ignored
      ensures old(isMounted) && status.Status? && Reading(status).None? ==> unchanged(this)
      // a valid reading moves progress; the one that reaches the top turns off
      ensures old(isMounted) && Reading(status).Some? ==>
        progress == NextProgress(old(progress), Reading(status).value) &&
        (isTurnedOff <==> Completes(old(progress), Reading(status).value)) &&
        (monitoring <==> !isTurnedOff) &&
        recording == (if isTurnedOff then None else old(recording)) &&
        backgroundSound == (if isTurnedOff then MusicAfterStop(old(backgroundSound), musicStopped) else old(backgroundSound))
      ensures isMounted == old(isMounted)
    {
      if !isMounted {
        monitoring := false;
        return;
      }
      match status {
        case StatusError =>
          monitoring := false;
        case Status(isRecording, metering) =>
          if isRecording && metering.Some? {
            if metering.value > BLOW_THRESHOLD {
              var newProgress := Raised(progress);
              if newProgress >= MAX_PROGRESS {
                isTurnedOff := true;
                monitoring := false;
                var _ := StopAllAudio(musicStopped);
              }
              progress := newProgress;
            } else {
              progress := Decayed(progress);
            }
          }
      }
    }
  }
}
