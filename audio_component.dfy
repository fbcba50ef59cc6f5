/** The `AudioRecorder` component of component/audio.tsx: the recorder's state cells and refs,
    the handlers that change them, and the duration display. */
module AudioComponent {
  import opened Base
  import Decimal

  const WavType := "audio/wav"
  const RecordingFileName := "recording.wav"

  /** A Blob: bytes and a declared media type (the type does not change the bytes). */
  datatype Blob = Blob(bytes: seq<byte>, mimeType: string)

  /** A File handed to `onRecordingComplete`. */
  datatype AudioFile = AudioFile(name: string, mimeType: string, bytes: seq<byte>)

  // ---------------------------------------------------------------------------
  // Chunk buffer and the Blob built from it
  // ---------------------------------------------------------------------------

  /** The bytes of `new Blob(chunks)`: the chunks one after another, in order. */
  function Concat(chunks: seq<seq<byte>>): seq<byte>
  {
    if chunks == [] then [] else Concat(chunks[..|chunks| - 1]) + chunks[|chunks| - 1]
  }

  /** The chunks that pass the `e.data.size > 0` test, in arrival order. */
  function NonEmpty(data: seq<seq<byte>>): (kept: seq<seq<byte>>)
    ensures forall i :: 0 <= i < |kept| ==> |kept[i]| > 0
    ensures |kept| <= |data|
  {
    if data == [] then []
    else if |data[|data| - 1]| > 0 then NonEmpty(data[..|data| - 1]) + [data[|data| - 1]]
    else NonEmpty(data[..|data| - 1])
  }

  lemma NonEmptySnoc(data: seq<seq<byte>>, chunk: seq<byte>)
    ensures NonEmpty(data + [chunk]) == if |chunk| > 0 then NonEmpty(data) + [chunk] else NonEmpty(data)
  {
    assert (data + [chunk])[..|data|] == data;
  }

  /** Concatenation distributes over splitting the chunk list. */
  lemma {:induction false} ConcatAppend(a: seq<seq<byte>>, b: seq<seq<byte>>)
    ensures Concat(a + b) == Concat(a) + Concat(b)
    decreases |b|
  {
    if b == [] {
      assert a + b == a;
    } else {
      var b' := b[..|b| - 1];
      assert (a + b)[..|a + b| - 1] == a + b';
      ConcatAppend(a, b');
    }
  }

  /** Dropping empty chunks does not change the Blob's bytes. */
  lemma {:induction false} ConcatNonEmpty(data: seq<seq<byte>>)
    ensures Concat(NonEmpty(data)) == Concat(data)
    decreases |data|
  {
    if data != [] {
      var init := data[..|data| - 1];
      ConcatNonEmpty(init);
      if |data[|data| - 1]| > 0 {
        ConcatAppend(NonEmpty(init), [data[|data| - 1]]);
        assert Concat([data[|data| - 1]]) == data[|data| - 1] by {
          assert [data[|data| - 1]][..0] == [];
        }
      } else {
        assert data[|data| - 1] == [];
      }
    }
  }

  /** The Blob is empty exactly when every chunk is. */
  lemma {:induction false} ConcatEmptyIff(chunks: seq<seq<byte>>)
    ensures Concat(chunks) == [] <==> forall i :: 0 <= i < |chunks| ==> chunks[i] == []
    decreases |chunks|
  {
    if chunks != [] {
      var init := chunks[..|chunks| - 1];
      ConcatEmptyIff(init);
      assert forall i :: 0 <= i < |init| ==> init[i] == chunks[i];
    }
  }

  /** Chunk `i` sits in the Blob right after the chunks that came before it. */
  lemma ConcatChunkAt(chunks: seq<seq<byte>>, i: nat)
    requires i < |chunks|
    ensures var off := |Concat(chunks[..i])|;
      off + |chunks[i]| <= |Concat(chunks)| && Concat(chunks)[off..off + |chunks[i]|] == chunks[i]
  {
    assert chunks == chunks[..i] + [chunks[i]] + chunks[i + 1..];
    ConcatAppend(chunks[..i] + [chunks[i]], chunks[i + 1..]);
    ConcatAppend(chunks[..i], [chunks[i]]);
    assert Concat([chunks[i]]) == chunks[i] by {
      assert [chunks[i]][..0] == [];
    }
  }

  // ---------------------------------------------------------------------------
  // formatDuration
  // ---------------------------------------------------------------------------

  /** `formatDuration(seconds)`: whole minutes, a colon, and the remaining seconds
      zero-padded to two digits. */
  function FormatDuration(seconds: nat): string
  {
    var mins := seconds / 60;
    var secs := seconds % 60;
    Decimal.NatToString(mins) + ":" + Decimal.PadStart(Decimal.NatToString(secs), 2, '0')
  }

  /** Reads an `m:ss` display back into seconds. */
  function ParseDuration(r: string): (n: Option<nat>)
  {
    if |r| >= 4 && r[|r| - 3] == ':' && Decimal.AllDigits(r[..|r| - 3]) && Decimal.AllDigits(r[|r| - 2..])
      && Decimal.DigitsValue(r[|r| - 2..]) < 60
    then Some(Decimal.DigitsValue(r[..|r| - 3]) * 60 + Decimal.DigitsValue(r[|r| - 2..]))
    else None
  }

  /** The displays `formatDuration` can produce: canonical minutes, a colon, two digits below 60. */
  predicate WellFormedDuration(r: string) {
    |r| >= 4 && r[|r| - 3] == ':' && Decimal.Canonical(r[..|r| - 3])
    && Decimal.AllDigits(r[|r| - 2..]) && Decimal.DigitsValue(r[|r| - 2..]) < 60
  }

  /** The parts of the display: canonical minutes, exactly two second digits below 60,
      and minutes * 60 + seconds is the input. */
  lemma FormatDurationParts(seconds: nat)
    ensures var r := FormatDuration(seconds);
      var mm := r[..|r| - 3];
      var ss := r[|r| - 2..];
      WellFormedDuration(r) && |ss| == 2
      && Decimal.DigitsValue(ss) == seconds % 60
      && Decimal.DigitsValue(mm) == seconds / 60
      && Decimal.DigitsValue(mm) * 60 + Decimal.DigitsValue(ss) == seconds
  {
    var m := Decimal.NatToString(seconds / 60);
    var ss := Decimal.PadStart(Decimal.NatToString(seconds % 60), 2, '0');
    Decimal.NatToStringRoundTrip(seconds / 60);
    PaddedSeconds(seconds % 60);
    DisplaySplit(m, ss);
  }

  /** The seconds part: two digits denoting the seconds. */
  lemma PaddedSeconds(secs: nat)
    requires secs < 60
    ensures var ss := Decimal.PadStart(Decimal.NatToString(secs), 2, '0');
      |ss| == 2 && Decimal.AllDigits(ss) && Decimal.DigitsValue(ss) == secs
  {
    var s := Decimal.NatToString(secs);
    var ss := Decimal.PadStart(s, 2, '0');
    Decimal.NatToStringRoundTrip(secs);
    Decimal.SmallNatToString(secs);
    Decimal.LeadingZerosValue(ss[..|ss| - |s|], s);
    assert ss == ss[..|ss| - |s|] + s;
  }

  /** Cutting `m:ss` at the colon gives back its two parts. */
  lemma DisplaySplit(m: string, ss: string)
    requires |m| >= 1 && |ss| == 2
    ensures var r := m + ":" + ss;
      |r| >= 4 && r[|r| - 3] == ':' && r[..|r| - 3] == m && r[|r| - 2..] == ss
  {
  }

  /** `ParseDuration` inverts `FormatDuration`. */
  lemma FormatDurationRoundTrip(seconds: nat)
    ensures ParseDuration(FormatDuration(seconds)) == Some(seconds)
  {
    FormatDurationParts(seconds);
  }

  /** Every well-formed display is the one `FormatDuration` gives for the seconds it denotes. */
  lemma FormatDurationCovers(r: string)
    requires WellFormedDuration(r)
    ensures ParseDuration(r).Some? && FormatDuration(ParseDuration(r).value) == r
  {
    var n := ParseDuration(r).value;
    FormatDurationParts(n);
    FormatDurationRoundTrip(n);
    WellFormedUnique(FormatDuration(n), r);
  }

  /** Two well-formed displays that denote the same number of seconds are the same string. */
  lemma WellFormedUnique(r1: string, r2: string)
    requires WellFormedDuration(r1) && WellFormedDuration(r2)
    requires ParseDuration(r1) == ParseDuration(r2)
    ensures r1 == r2
  {
    var mm1, ss1 := r1[..|r1| - 3], r1[|r1| - 2..];
    var mm2, ss2 := r2[..|r2| - 3], r2[|r2| - 2..];
    SixtyUnique(Decimal.DigitsValue(mm1), Decimal.DigitsValue(ss1), Decimal.DigitsValue(mm2), Decimal.DigitsValue(ss2));
    DigitStringsUnique(mm1, mm2);
    TwoDigitsUnique(ss1, ss2);
    Rejoin(r1);
    Rejoin(r2);
  }

  lemma DigitStringsUnique(a: string, b: string)
    requires Decimal.Canonical(a) && Decimal.Canonical(b) && Decimal.DigitsValue(a) == Decimal.DigitsValue(b)
    ensures a == b
  {
    Decimal.CanonicalRoundTrip(a);
    Decimal.CanonicalRoundTrip(b);
  }

  lemma TwoDigitsUnique(a: string, b: string)
    requires |a| == 2 && |b| == 2 && Decimal.AllDigits(a) && Decimal.AllDigits(b)
    requires Decimal.DigitsValue(a) == Decimal.DigitsValue(b)
    ensures a == b
  {
    TwoDigitsPadded(a);
    TwoDigitsPadded(b);
  }

  lemma Rejoin(r: string)
    requires |r| >= 4 && r[|r| - 3] == ':'
    ensures r == r[..|r| - 3] + ":" + r[|r| - 2..]
  {
    assert r == r[..|r| - 3] + [r[|r| - 3]] + r[|r| - 2..];
  }

  lemma SixtyUnique(m1: nat, s1: nat, m2: nat, s2: nat)
    requires s1 < 60 && s2 < 60 && m1 * 60 + s1 == m2 * 60 + s2
    ensures m1 == m2 && s1 == s2
  {
  }

  /** Any two digits are what `padStart(2, '0')` makes of the number they denote. */
  lemma TwoDigitsPadded(ss: string)
    requires |ss| == 2 && Decimal.AllDigits(ss)
    ensures Decimal.PadStart(Decimal.NatToString(Decimal.DigitsValue(ss)), 2, '0') == ss
  {
    if ss[0] == '0' {
      var tail := ss[1..];
      assert ss == [ss[0]] + tail;
      Decimal.LeadingZerosValue([ss[0]], tail);
      Decimal.CanonicalRoundTrip(tail);
    } else {
      Decimal.CanonicalRoundTrip(ss);
    }
  }

  /** Different durations are displayed differently. */
  lemma FormatDurationInjective(a: nat, b: nat)
    ensures FormatDuration(a) == FormatDuration(b) <==> a == b
  {
    FormatDurationRoundTrip(a);
    FormatDurationRoundTrip(b);
  }

  // ---------------------------------------------------------------------------
  // The component's state and its handlers
  // ---------------------------------------------------------------------------

  /** The state cells and refs of one mounted `AudioRecorder`.

      - `isRecording`, `audioBlob`, `recordingDuration`: the three `useState` cells;
      - `hasRecorder`: `mediaRecorderRef.current` is not null;
      - `chunks`: `chunksRef.current`;
      - `timerActive`: `timerRef.current` names an interval that has not been cleared;
      - `strayTimers`: live intervals that no ref names any more (they still tick);
      - `pendingStops`: recorders that were told to `stop()` and whose stop event has
        not been delivered yet (the event arrives asynchronously).

      The handlers of every recorder read the refs when they run, so a stop or data event
      acts on the current buffer and timer whichever recorder delivers it. */
  class AudioRecorder {
    var isRecording: bool
    var audioBlob: Option<Blob>
    var recordingDuration: nat
    var hasRecorder: bool
    var chunks: seq<seq<byte>>
    var timerActive: bool
    var strayTimers: nat
    var pendingStops: nat
    /** Every chunk delivered since the last start, empty ones included. */
    ghost var received: seq<seq<byte>>

    ghost predicate Valid()
      reads this
    {
      chunks == NonEmpty(received)
      && (isRecording || pendingStops > 0 || timerActive ==> hasRecorder)
      // only a start between stop() and its stop event can leave an interval behind
      && (!isRecording && pendingStops == 0 ==> !timerActive)
    }

    /** Render guard of the "Start Recording" button. */
    predicate StartOffered()
      reads this
    {
      !isRecording && audioBlob.None?
    }

    /** Render guard of the recording panel with its "Stop Recording" button. */
    predicate StopOffered()
      reads this
    {
      isRecording
    }

    /** Render guard of the player with its "Use Recording" button. */
    predicate UploadOffered()
      reads this
    {
      audioBlob.Some?
    }

    /** Whether an interval callback can still run. */
    predicate TickPossible()
      reads this
    {
      timerActive || strayTimers > 0
    }

    /** The initial values of the cells and refs. */
    constructor ()
      ensures Valid()
      ensures !isRecording && audioBlob.None? && recordingDuration == 0
      ensures !hasRecorder && chunks == [] && !timerActive && strayTimers == 0 && pendingStops == 0
      ensures received == []
      ensures StartOffered() && !StopOffered() && !UploadOffered() && !TickPossible()
    {
      isRecording, audioBlob, recordingDuration := false, None, 0;
      hasRecorder, chunks, timerActive, strayTimers, pendingStops := false, [], false, 0, 0;
      received := [];
    }

    /** `startRecording`, with `micGranted` the outcome of `getUserMedia`. Only the
        "Start Recording" button calls it, so it runs only when that button is rendered.
        A refused microphone is caught and changes nothing. Otherwise a new recorder
        replaces the current one, the buffer is emptied, recording begins and the counter
        restarts at 0 with a fresh interval; an interval `timerRef` still named is overwritten
        and keeps running. */
    method StartRecording(micGranted: bool)
      requires Valid() && StartOffered()
      modifies this
      ensures Valid()
      ensures !micGranted ==>
        isRecording == old(isRecording) && audioBlob == old(audioBlob)
        && recordingDuration == old(recordingDuration) && hasRecorder == old(hasRecorder)
        && chunks == old(chunks) && received == old(received) && timerActive == old(timerActive)
        && strayTimers == old(strayTimers) && pendingStops == old(pendingStops)
      ensures micGranted ==>
        isRecording && hasRecorder && chunks == [] && received == [] && recordingDuration == 0
        && timerActive && audioBlob == old(audioBlob) && pendingStops == old(pendingStops)
        && strayTimers == old(strayTimers) + (if old(timerActive) then 1 else 0)
      ensures micGranted && old(pendingStops) == 0 ==> strayTimers == old(strayTimers)
      ensures micGranted ==> StopOffered() && !StartOffered() && !UploadOffered()
    {
      if !micGranted {
        return;
      }
      hasRecorder := true;
      chunks := [];
      received := [];
      isRecording := true;
      recordingDuration := 0;
      if timerActive {
        strayTimers := strayTimers + 1;
      }
      timerActive := true;
    }

    /** The `ondataavailable` handler: a chunk is appended only when it holds data.
        Data arrives only from a recorder that is recording or flushing after `stop()`. */
    method OnDataAvailable(data: seq<byte>)
      requires Valid() && (isRecording || pendingStops > 0)
      modifies this
      ensures Valid()
      ensures received == old(received) + [data]
      ensures chunks == if |data| > 0 then old(chunks) + [data] else old(chunks)
      ensures isRecording == old(isRecording) && audioBlob == old(audioBlob)
        && recordingDuration == old(recordingDuration) && hasRecorder == old(hasRecorder)
        && timerActive == old(timerActive) && strayTimers == old(strayTimers)
        && pendingStops == old(pendingStops)
    {
      NonEmptySnoc(received, data);
      if |data| > 0 {
        chunks := chunks + [data];
      }
      received := received + [data];
    }

    /** One run of the interval callback: the counter goes up by exactly one. */
    method Tick()
      requires Valid() && TickPossible()
      modifies this
      ensures Valid()
      ensures recordingDuration == old(recordingDuration) + 1
      ensures isRecording == old(isRecording) && audioBlob == old(audioBlob)
        && hasRecorder == old(hasRecorder) && chunks == old(chunks) && received == old(received)
        && timerActive == old(timerActive) && strayTimers == old(strayTimers)
        && pendingStops == old(pendingStops)
    {
      recordingDuration := recordingDuration + 1;
    }

    /** `stopRecording`: acts only when a recorder exists and recording is on; then the
        recorder is told to stop (its stop event is now owed) and recording is off. */
    method StopRecording()
      requires Valid()
      modifies this
      ensures Valid()
      ensures !(old(hasRecorder) && old(isRecording)) ==>
        isRecording == old(isRecording) && pendingStops == old(pendingStops)
      ensures old(hasRecorder) && old(isRecording) ==>
        !isRecording && pendingStops == old(pendingStops) + 1
      ensures !isRecording
      ensures audioBlob == old(audioBlob) && recordingDuration == old(recordingDuration)
        && hasRecorder == old(hasRecorder) && chunks == old(chunks) && received == old(received)
        && timerActive == old(timerActive) && strayTimers == old(strayTimers)
    {
      if hasRecorder && isRecording {
        pendingStops := pendingStops + 1;
        isRecording := false;
      }
    }

    /** The `onstop` handler, run once per stopped recorder: the Blob becomes the buffer's
        chunks in order, typed `audio/wav`, and the interval `timerRef` names is cleared. */
    method OnStop()
      requires Valid() && pendingStops > 0
      modifies this
      ensures Valid()
      ensures audioBlob == Some(Blob(Concat(old(chunks)), WavType))
      ensures audioBlob.value.bytes == Concat(old(received))
      ensures !timerActive && pendingStops == old(pendingStops) - 1
      ensures old(strayTimers) == 0 ==> !TickPossible()
      ensures UploadOffered() && !StartOffered()
      ensures isRecording == old(isRecording) && recordingDuration == old(recordingDuration)
        && hasRecorder == old(hasRecorder) && chunks == old(chunks) && received == old(received)
        && strayTimers == old(strayTimers)
    {
      audioBlob := Some(Blob(Concat(chunks), WavType));
      ConcatNonEmpty(received);
      timerActive := false;
      pendingStops := pendingStops - 1;
    }

    /** `handleUpload`: with a Blob, hands `recording.wav` (type `audio/wav`, the Blob's bytes)
        to `onRecordingComplete` and drops the Blob; without one, does nothing. The result
        is the argument of that one callback invocation, or `None` when it is not invoked. */
    method HandleUpload() returns (handed: Option<AudioFile>)
      requires Valid()
      modifies this
      ensures Valid()
      ensures old(audioBlob).Some? ==>
        handed == Some(AudioFile(RecordingFileName, WavType, old(audioBlob).value.bytes))
        && audioBlob.None?
      ensures old(audioBlob).None? ==> handed.None? && audioBlob.None?
      ensures handed.Some? <==> old(UploadOffered())
      ensures isRecording == old(isRecording) && recordingDuration == old(recordingDuration)
        && hasRecorder == old(hasRecorder) && chunks == old(chunks) && received == old(received)
        && timerActive == old(timerActive) && strayTimers == old(strayTimers)
        && pendingStops == old(pendingStops)
    {
      handed := None;
      if audioBlob.Some? {
        handed := Some(AudioFile(RecordingFileName, WavType, audioBlob.value.bytes));
        audioBlob := None;
      }
    }
  }

  /** A start and five ticks: the display shows `0:05`; after the stop and its stop event
      no interval is left. */
  method FiveTicks() returns (display: string, ticking: bool)
    ensures display == "0:05" && !ticking
  {
    var r := new AudioRecorder();
    r.StartRecording(true);
    r.Tick(); r.Tick(); r.Tick(); r.Tick(); r.Tick();
    assert r.recordingDuration == 5;
    assert FormatDuration(5) == "0:05" by {
      assert Decimal.NatToString(0) == "0" && Decimal.NatToString(5) == "5";
      assert Decimal.PadStart("5", 2, '0') == "05";
    }
    r.StopRecording();
    r.OnStop();
    display, ticking := FormatDuration(r.recordingDuration), r.TickPossible();
  }

  /** Two data chunks around an empty one: the file handed over is `recording.wav`, typed
      `audio/wav`, and holds the two chunks in order. */
  method RecordTwoChunks(first: seq<byte>, second: seq<byte>) returns (file: Option<AudioFile>)
    ensures file == Some(AudioFile(RecordingFileName, WavType, first + second))
  {
    var r := new AudioRecorder();
    r.StartRecording(true);
    r.StopRecording();
    DeliverAroundEmpty(r, first, second);
    r.OnStop();
    ConcatAroundEmpty([first, [], second]);
    file := r.HandleUpload();
  }

  /** The data events of one stopped recording: a chunk, an empty chunk, a chunk. */
  method DeliverAroundEmpty(r: AudioRecorder, first: seq<byte>, second: seq<byte>)
    requires r.Valid() && r.received == [] && r.pendingStops > 0
    modifies r
    ensures r.Valid() && r.received == [first, [], second] && r.pendingStops == old(r.pendingStops)
  {
    r.OnDataAvailable(first);
    assert r.received == [first];
    r.OnDataAvailable([]);
    assert r.received == [first, []];
    r.OnDataAvailable(second);
    assert r.received == [first, [], second];
  }

  lemma ConcatAroundEmpty(cs: seq<seq<byte>>)
    requires |cs| == 3 && cs[1] == []
    ensures Concat(cs) == cs[0] + cs[2]
  {
    assert cs[..2][..1] == cs[..1];
    assert cs[..1][..0] == [];
    assert Concat(cs[..1]) == cs[0];
  }

  /** A start after `stop()` but before the stop event: the late stop event clears the new
      interval and leaves the old one running, so the counter keeps ticking. */
  method StartBeforeStopEvent() returns (recording: bool, timerNamed: bool, stray: nat, duration: nat)
    ensures recording && !timerNamed && stray == 1 && duration == 1
  {
    var r := new AudioRecorder();
    r.StartRecording(true);
    r.StopRecording();
    assert r.StartOffered();
    r.StartRecording(true);
    r.OnStop();
    r.Tick();
    recording, timerNamed, stray, duration := r.isRecording, r.timerActive, r.strayTimers, r.recordingDuration;
  }
}
