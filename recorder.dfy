/**
 * The recorder screen (ex.js): one button that starts a recording when the
 * microphone permission is granted and stops it otherwise, a list that gains
 * one line per stopped recording, numbered rows, and a clear button.
 *
 * The permission prompt, the recorder and the loaded sound are inputs. The
 * duration text is `getDurationFormatted` as written.
 */
module Recorder {
  import opened Options
  import Duration

  const GRANTED: string := "granted"
  const START_TITLE: string := "Start Recording"
  const STOP_TITLE: string := "Stop Recording"
  const CLEAR_TITLE: string := "Clear Recordings"

  /** A recorder handle; `uri` is what its `getURI()` answers. */
  datatype Recording = Recording(id: nat, uri: Option<string>)

  /** An opaque handle of a loaded, replayable sound. */
  datatype Sound = Sound(id: nat)

  /** What `createNewLoadedSoundAsync` gave: the sound and its status's duration. */
  datatype Loaded = Loaded(sound: Sound, durationMillis: nat)

  /** One entry of the list: `{ sound, duration, file }`. */
  datatype RecordingLine = RecordingLine(sound: Sound, duration: string, file: Option<string>)

  /** One rendered row: its "recording #" number and the duration text. */
  datatype Row = Row(number: nat, duration: string)

  /** The entry `stopRecording` pushes for a recorder and what it loaded. */
  function LineFor(rec: Recording, loaded: Loaded): (line: RecordingLine)
    ensures line.sound == loaded.sound && line.file == rec.uri
    ensures ':' in line.duration <==> Duration.RoundedSeconds(loaded.durationMillis) < 10
    ensures Duration.RoundedSeconds(loaded.durationMillis) >= 10 ==>
      Duration.AllDigits(line.duration) &&
      Duration.DigitsValue(line.duration) == Duration.WholeMinutes(loaded.durationMillis)
    ensures var m := Duration.Decimal(Duration.WholeMinutes(loaded.durationMillis)); var k := |m|;
      Duration.RoundedSeconds(loaded.durationMillis) < 10 ==>
        |line.duration| == k + 4 && line.duration[..k] == m && line.duration[k..k + 3] == ":0 " &&
        Duration.IsDigit(line.duration[k + 3]) &&
        Duration.DigitValue(line.duration[k + 3]) == Duration.RoundedSeconds(loaded.durationMillis)
  {
    Duration.FormattedShapes(loaded.durationMillis);
    RecordingLine(loaded.sound, Duration.DurationFormatted(loaded.durationMillis), rec.uri)
  }

  /** Rows for `lines`, numbered from `first` on. */
  function NumberFrom(lines: seq<RecordingLine>, first: nat): (rows: seq<Row>)
    ensures |rows| == |lines|
    ensures forall i :: 0 <= i < |lines| ==> rows[i] == Row(first + i, lines[i].duration)
    decreases |lines|
  {
    if lines == [] then [] else [Row(first, lines[0].duration)] + NumberFrom(lines[1..], first + 1)
  }

  /** `getRecordingLines`: one row per entry, in list order, numbered from 1. */
  function RecordingLines(lines: seq<RecordingLine>): (rows: seq<Row>)
    ensures |rows| == |lines|
    ensures forall i :: 0 <= i < |lines| ==> rows[i].number == i + 1 && rows[i].duration == lines[i].duration
  {
    NumberFrom(lines, 1)
  }

  class RecorderScreen {
    var recording: Option<Recording>
    var recordings: seq<RecordingLine>

    constructor ()
      ensures recording == None && recordings == []
    {
      recording, recordings := None, [];
    }

    /** The title of the single button, which also picks start or stop. */
    function ToggleTitle(): string
      reads this
    {
      if recording.Some? then STOP_TITLE else START_TITLE
    }

    /** The clear button's title: blank while the list is empty. */
    function ClearTitle(): string
      reads this
    {
      if |recordings| > 0 then CLEAR_TITLE else ""
    }

    /**
     * `startRecording`, reached only while nothing is recording. `permission`
     * is the prompt's status, or nothing when asking threw; `created` is the
     * new recorder, or nothing when setting the audio mode or creating it
     * threw. Every failure is swallowed and leaves the state as it was.
     */
    method StartRecording(permission: Option<string>, created: Option<Recording>)
      requires recording.None?
      modifies this
      ensures recording.Some? <==> permission == Some(GRANTED) && created.Some?
      ensures recording.Some? ==> recording == created
      ensures recordings == old(recordings)
      ensures ToggleTitle() == STOP_TITLE <==> permission == Some(GRANTED) && created.Some?
    {
      if permission.Some? && permission.value == GRANTED {
        if created.Some? {
          recording := created;
        }
      }
    }

    /**
     * `stopRecording`, reached only while recording. `loaded` is what the
     * recorder gave after stopping, or nothing when stopping or loading threw.
     */
    method StopRecording(loaded: Option<Loaded>)
      requires recording.Some?
      modifies this
      ensures recording == None
      ensures loaded.None? ==> recordings == old(recordings)
      ensures loaded.Some? ==> recordings == old(recordings) + [LineFor(old(recording).value, loaded.value)]
      ensures ToggleTitle() == START_TITLE
      ensures loaded.Some? ==> ClearTitle() == CLEAR_TITLE
    {
      var rec := recording.value;
      recording := None;
      if loaded.Some? {
        var allRecordings := recordings;
        allRecordings := allRecordings + [LineFor(rec, loaded.value)];
        recordings := allRecordings;
      }
    }

    /** `clearRecordings` */
    method ClearRecordings()
      modifies this
      ensures recordings == [] && recording == old(recording)
      ensures ClearTitle() == ""
    {
      recordings := [];
    }
  }
}
