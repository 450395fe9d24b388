/**
 * The video panel (app/components/Video.tsx): it records the canvas into
 * a list of chunks, shows the elapsed recording time as MM:SS, exports
 * the chunks, and places an uploaded video on the canvas scaled to fit.
 *
 * The state hooks become fields of the class `Video`; the recorder and
 * interval refs are reduced to whether a recorder exists and whether the
 * timer runs. The media streams, the download and the timer scheduling
 * are outside the model: the timer's callback is the method `Tick`, the
 * recorder's data event is `HandleDataAvailable`, and the video element's
 * "loadeddata" event is `HandleVideoLoaded`.
 */
module VideoRecording {
  import opened Fabric
  import opened EcmaScript

  // ---------------------------------------------------------------------
  // The time display
  // ---------------------------------------------------------------------

  /**
   * `formatTime(seconds)`: whole minutes and the remaining seconds, each
   * left-padded with "0" to two characters, joined by ':'. The recording
   * time is a count of timer ticks, so it is a natural number.
   */
  function FormatTime(seconds: nat): string
  {
    var minutes := seconds / 60;
    var secs := seconds % 60;
    PadStart(NatToString(minutes), 2, '0') + ":" + PadStart(NatToString(secs), 2, '0')
  }

  /** A number padded to two places is still decimal digits of the same value. */
  lemma PaddedNumber(n: nat)
    ensures var t := PadStart(NatToString(n), 2, '0');
      AllDigits(t, 10) && Value(t, 10) == n
  {
    PadStartDigits(NatToString(n), 2);
    NatToStringValue(n);
  }

  /** Two parts joined by ':' with a two-character right part split back at the third-last character. */
  lemma SplitAtColon(left: string, right: string)
    requires |right| == 2
    ensures var r := left + ":" + right;
      |r| - 3 >= 0 && r[..|r| - 3] == left && r[|r| - 3] == ':' && r[|r| - 2..] == right
  {
  }

  /**
   * The text splits at its third-last character, a ':', into a minutes part
   * and a two-digit seconds part; the parts are decimal digits that read back
   * as the whole minutes and the remaining seconds (so the seconds are
   * 00..59).
   */
  lemma FormatTimeReadsBack(seconds: nat)
    ensures |FormatTime(seconds)| >= 5
    ensures var r := FormatTime(seconds);
      && r[|r| - 3] == ':'
      && AllDigits(r[..|r| - 3], 10) && AllDigits(r[|r| - 2..], 10)
      && Value(r[..|r| - 3], 10) == seconds / 60
      && Value(r[|r| - 2..], 10) == seconds % 60 < 60
  {
    var mm := PadStart(NatToString(seconds / 60), 2, '0');
    var ss := PadStart(NatToString(seconds % 60), 2, '0');
    PaddedNumber(seconds / 60);
    PaddedNumber(seconds % 60);
    assert |ss| == 2;
    SplitAtColon(mm, ss);
    var r := FormatTime(seconds);
    assert r == mm + ":" + ss;
    assert r[..|r| - 3] == mm && r[|r| - 2..] == ss;
  }

  /**
   * Padding never cuts: the minutes part is zeros followed by every digit
   * of the minutes, and it is at least two characters long.
   */
  lemma FormatTimeKeepsMinuteDigits(seconds: nat)
    ensures var r := FormatTime(seconds);
      var m := NatToString(seconds / 60);
      && |r| == (if |m| >= 2 then |m| else 2) + 3
      && r[..|r| - 3] == Repeat('0', |r| - 3 - |m|) + m
  {
    var m := NatToString(seconds / 60);
    var mm := PadStart(m, 2, '0');
    var ss := PadStart(NatToString(seconds % 60), 2, '0');
    assert |ss| == 2;
    SplitAtColon(mm, ss);
  }

  /** Different times show differently. */
  lemma FormatTimeInjective(a: nat, b: nat)
    ensures FormatTime(a) == FormatTime(b) ==> a == b
  {
    if FormatTime(a) == FormatTime(b) {
      var ma, sa := PadStart(NatToString(a / 60), 2, '0'), PadStart(NatToString(a % 60), 2, '0');
      var mb, sb := PadStart(NatToString(b / 60), 2, '0'), PadStart(NatToString(b % 60), 2, '0');
      PaddedNumber(a / 60);
      PaddedNumber(a % 60);
      PaddedNumber(b / 60);
      PaddedNumber(b % 60);
      assert |sa| == 2 && |sb| == 2;
      SplitAtColon(ma, sa);
      SplitAtColon(mb, sb);
      assert ma == mb && sa == sb;
    }
  }

  // ---------------------------------------------------------------------
  // Recorded data
  // ---------------------------------------------------------------------

  /** A piece of recorded media; its size is its length in bytes. */
  datatype Blob = Blob(data: seq<bv8>)

  /** The chunk list after a data event: `event.data.size > 0` appends, anything else is dropped. */
  function ChunksAfterData(chunks: seq<Blob>, chunk: Blob): (r: seq<Blob>)
    ensures chunks <= r && |r| <= |chunks| + 1
  {
    if |chunk.data| > 0 then chunks + [chunk] else chunks
  }

  /** `new Blob(recordingChunks)`: the chunks' bytes one after another. */
  function Joined(chunks: seq<Blob>): (bytes: seq<bv8>)
    ensures chunks != [] ==> chunks[0].data <= bytes
  {
    if chunks == [] then [] else Joined(chunks[..|chunks| - 1]) + chunks[|chunks| - 1].data
  }

  /** Every chunk in the list holds data. */
  predicate AllNonEmpty(chunks: seq<Blob>)
  {
    forall i :: 0 <= i < |chunks| ==> |chunks[i].data| > 0
  }

  /**
   * A data event keeps the earlier chunks in their order and adds the new
   * one at the end exactly when it holds data.
   */
  lemma ChunksAfterDataAppends(chunks: seq<Blob>, chunk: Blob)
    ensures var r := ChunksAfterData(chunks, chunk);
      && chunks <= r
      && (|r| == |chunks| + 1 <==> |chunk.data| > 0)
      && (|r| == |chunks| + 1 ==> r[|chunks|] == chunk)
      && (|r| == |chunks| || |r| == |chunks| + 1)
  {
  }

  /** Empty chunks never enter the list, so a list built by data events holds only chunks with data. */
  lemma ChunksAfterDataKeepsNonEmpty(chunks: seq<Blob>, chunk: Blob)
    requires AllNonEmpty(chunks)
    ensures AllNonEmpty(ChunksAfterData(chunks, chunk))
  {
  }

  /** The exported file grows by exactly the new chunk's bytes. */
  lemma JoinedAfterData(chunks: seq<Blob>, chunk: Blob)
    ensures Joined(ChunksAfterData(chunks, chunk)) == Joined(chunks) + chunk.data
  {
    if |chunk.data| > 0 {
      assert (chunks + [chunk])[..|chunks|] == chunks;
    } else {
      assert Joined(chunks) + chunk.data == Joined(chunks);
    }
  }

  /** With only non-empty chunks, the export holds at least one byte per chunk. */
  lemma {:induction false} JoinedLength(chunks: seq<Blob>)
    requires AllNonEmpty(chunks)
    ensures |Joined(chunks)| >= |chunks|
  {
    if chunks != [] {
      JoinedLength(chunks[..|chunks| - 1]);
    }
  }

  // ---------------------------------------------------------------------
  // Object flags while recording
  // ---------------------------------------------------------------------

  /** The flags a recording sets: no controls, and at the start also `selectable`. */
  function RecordingFlags(p: Props, atStart: bool): (q: Props)
    ensures !q.hasControls
    ensures atStart ==> q.selectable
  {
    if atStart then p.(hasControls := false, selectable := true) else p.(hasControls := false)
  }

  /** Setting the flags twice is setting them once, so an object listed twice ends up the same; no other property changes. */
  lemma RecordingFlagsIdempotent(p: Props, atStart: bool)
    ensures RecordingFlags(RecordingFlags(p, atStart), atStart) == RecordingFlags(p, atStart)
    ensures RecordingFlags(p, atStart).(hasControls := p.hasControls, selectable := p.selectable) == p
  {
  }

  /** `canvas.getObjects().forEach(...)`: sets the recording flags on every object of the scene. */
  method SetRecordingFlags(objects: seq<FabricObject>, atStart: bool)
    modifies set o | o in objects
    ensures forall j :: 0 <= j < |objects| ==> objects[j].props == RecordingFlags(old(objects[j].props), atStart)
  {
    var i := 0;
    while i < |objects|
      invariant 0 <= i <= |objects|
      invariant forall j :: 0 <= j < i ==> objects[j].props == RecordingFlags(old(objects[j].props), atStart)
      invariant forall j :: 0 <= j < |objects| ==>
        objects[j].props == old(objects[j].props) || objects[j].props == RecordingFlags(old(objects[j].props), atStart)
    {
      var obj := objects[i];
      obj.props := RecordingFlags(obj.props, atStart);
      i := i + 1;
    }
  }

  // ---------------------------------------------------------------------
  // Fitting an uploaded video
  // ---------------------------------------------------------------------

  function Min(a: real, b: real): real
  {
    if a <= b then a else b
  }

  /** `Math.min(canvasWidth / videoWidth, canvasHeight / videoHeight)` */
  function FitScale(canvasWidth: real, canvasHeight: real, videoWidth: real, videoHeight: real): (scale: real)
    requires videoWidth > 0.0 && videoHeight > 0.0
    ensures scale <= canvasWidth / videoWidth && scale <= canvasHeight / videoHeight
    ensures scale == canvasWidth / videoWidth || scale == canvasHeight / videoHeight
  {
    Min(canvasWidth / videoWidth, canvasHeight / videoHeight)
  }

  /**
   * The scaled video fits inside the canvas, and touches it on at least one
   * side, so no larger scale would fit.
   */
  lemma FitScaleFits(canvasWidth: real, canvasHeight: real, videoWidth: real, videoHeight: real)
    requires videoWidth > 0.0 && videoHeight > 0.0
    ensures var scale := FitScale(canvasWidth, canvasHeight, videoWidth, videoHeight);
      && videoWidth * scale <= canvasWidth
      && videoHeight * scale <= canvasHeight
      && (videoWidth * scale == canvasWidth || videoHeight * scale == canvasHeight)
  {
    var sw := canvasWidth / videoWidth;
    var sh := canvasHeight / videoHeight;
    assert videoWidth * sw == canvasWidth;
    assert videoHeight * sh == canvasHeight;
    if sw <= sh {
      assert videoHeight * sw <= videoHeight * sh;
    } else {
      assert videoWidth * sh <= videoWidth * sw;
    }
  }

  // ---------------------------------------------------------------------
  // The component
  // ---------------------------------------------------------------------

  class Video {
    var recordingChunks: seq<Blob>
    var isRecording: bool
    var recordingTime: nat
    var uploadMessage: string
    var fabricVideo: FabricObject?
    /** Whether `mediaRecorderRef.current` holds a recorder. */
    var hasRecorder: bool
    /** Whether the one-second interval is set. */
    var timerRunning: bool

    constructor ()
      ensures recordingChunks == [] && !isRecording && recordingTime == 0 && uploadMessage == ""
      ensures fabricVideo == null && !hasRecorder && !timerRunning
    {
      recordingChunks := [];
      isRecording := false;
      recordingTime := 0;
      uploadMessage := "";
      fabricVideo := null;
      hasRecorder := false;
      timerRunning := false;
    }

    /** The export button is enabled exactly when some chunk is waiting: `disabled={!recordingChunks.length}`. */
    predicate ExportEnabled()
      reads this
    {
      |recordingChunks| != 0
    }

    /** The banner shown while recording, with the elapsed time. */
    function Banner(): (text: string)
      reads this
      ensures text != "" <==> isRecording
    {
      if isRecording then "Recording: " + FormatTime(recordingTime) else ""
    }

    /** `handleDataAvailable`: a chunk with data is appended; an empty one is dropped. */
    method HandleDataAvailable(chunk: Blob)
      modifies this`recordingChunks
      ensures recordingChunks == ChunksAfterData(old(recordingChunks), chunk)
    {
      if |chunk.data| > 0 {
        recordingChunks := recordingChunks + [chunk];
      }
    }

    /** `handleExportVideo`: hands out the joined chunks as the file and empties the list. */
    method HandleExportVideo() returns (file: Blob)
      modifies this`recordingChunks
      ensures file.data == Joined(old(recordingChunks))
      ensures recordingChunks == [] && !ExportEnabled()
    {
      file := Blob(Joined(recordingChunks));
      recordingChunks := [];
    }

    /**
     * `handleStartRecording`: without canvas capture the panel only shows a
     * message; otherwise a recorder is started, every object loses its
     * controls and becomes selectable, and the time restarts from 0 with the
     * timer running.
     */
    method HandleStartRecording(canvas: Canvas, captureSupported: bool)
      modifies this, set o | o in canvas.objects
      ensures !captureSupported ==>
        && uploadMessage == "Recording is not supported in this browser"
        && isRecording == old(isRecording) && recordingTime == old(recordingTime)
        && hasRecorder == old(hasRecorder) && timerRunning == old(timerRunning)
        && recordingChunks == old(recordingChunks)
        && forall j :: 0 <= j < |canvas.objects| ==> canvas.objects[j].props == old(canvas.objects[j].props)
      ensures captureSupported ==>
        && hasRecorder && isRecording && recordingTime == 0 && timerRunning
        && uploadMessage == old(uploadMessage) && recordingChunks == old(recordingChunks)
        && forall j :: 0 <= j < |canvas.objects| ==>
             canvas.objects[j].props == RecordingFlags(old(canvas.objects[j].props), true)
      ensures fabricVideo == old(fabricVideo)
    {
      if !captureSupported {
        uploadMessage := "Recording is not supported in this browser";
        return;
      }
      hasRecorder := true;
      isRecording := true;
      SetRecordingFlags(canvas.objects, true);
      recordingTime := 0;
      timerRunning := true;
    }

    /**
     * `handleStopRecording`: nothing happens without a recorder; otherwise
     * recording stops, every object loses its controls, and the timer stops.
     */
    method HandleStopRecording(canvas: Canvas)
      modifies this`isRecording, this`timerRunning, set o | o in canvas.objects
      ensures !old(hasRecorder) ==>
        && isRecording == old(isRecording) && timerRunning == old(timerRunning)
        && forall j :: 0 <= j < |canvas.objects| ==> canvas.objects[j].props == old(canvas.objects[j].props)
      ensures old(hasRecorder) ==>
        && !isRecording && !timerRunning
        && forall j :: 0 <= j < |canvas.objects| ==>
             canvas.objects[j].props == RecordingFlags(old(canvas.objects[j].props), false)
    {
      if hasRecorder {
        isRecording := false;
        SetRecordingFlags(canvas.objects, false);
        if timerRunning {
          timerRunning := false;
        }
      }
    }

    /**
     * The interval's callback: one more second. The interval exists only
     * between a successful start and the next stop, so a tick needs the
     * timer to be running; while recording, every tick changes the banner.
     */
    method Tick()
      requires timerRunning
      modifies this`recordingTime
      ensures recordingTime == old(recordingTime) + 1
      ensures isRecording ==> Banner() != old(Banner())
    {
      ghost var before := Banner();
      recordingTime := recordingTime + 1;
      if isRecording {
        FormatTimeInjective(recordingTime - 1, recordingTime);
        assert before[11..] == FormatTime(recordingTime - 1);
        assert Banner()[11..] == FormatTime(recordingTime);
      }
    }

    /**
     * The "loadeddata" handler of an uploaded video: a new image of the
     * video's size, at the origin and scaled by the fit scale, goes on the
     * canvas and becomes the panel's video.
     */
    method HandleVideoLoaded(canvas: Canvas, videoWidth: real, videoHeight: real) returns (image: FabricObject)
      requires videoWidth > 0.0 && videoHeight > 0.0
      modifies this`fabricVideo, this`uploadMessage, canvas`objects
      ensures fresh(image) && image.typeName == "image"
      ensures var scale := FitScale(canvas.width, canvas.height, videoWidth, videoHeight);
        image.props == DefaultProps.(left := 0.0, top := 0.0, width := videoWidth, height := videoHeight,
                                     scaleX := scale, scaleY := scale)
      ensures canvas.objects == old(canvas.objects) + [image]
      ensures fabricVideo == image && uploadMessage == "Uploaded"
    {
      var scale := Min(canvas.width / videoWidth, canvas.height / videoHeight);
      image := new FabricObject("image", "", DefaultProps.(left := 0.0, top := 0.0,
        width := videoWidth, height := videoHeight, scaleX := scale, scaleY := scale));
      fabricVideo := image;
      canvas.Add(image);
      uploadMessage := "Uploaded";
    }
  }

  /** A loaded video is drawn inside the canvas when the canvas has a size. */
  lemma LoadedVideoFits(p: Props, canvasWidth: real, canvasHeight: real, videoWidth: real, videoHeight: real)
    requires videoWidth > 0.0 && videoHeight > 0.0 && canvasWidth > 0.0 && canvasHeight > 0.0
    requires p == DefaultProps.(left := 0.0, top := 0.0, width := videoWidth, height := videoHeight,
                                scaleX := FitScale(canvasWidth, canvasHeight, videoWidth, videoHeight),
                                scaleY := FitScale(canvasWidth, canvasHeight, videoWidth, videoHeight))
    ensures EffectiveWidth(p) <= canvasWidth && EffectiveHeight(p) <= canvasHeight
  {
    FitScaleFits(canvasWidth, canvasHeight, videoWidth, videoHeight);
    assert FitScale(canvasWidth, canvasHeight, videoWidth, videoHeight) > 0.0;
  }
}
