/**
  Bounded buffers of the event store: process output text and realtime audio. The buffers are
  maintained incrementally and equal the bounded suffix of everything that was received.
  Source: src/appServer/serverEventState.ts.
 */
module EventBuffers {
  import opened Prelude

  const TEXT_LIMIT: nat := 32_768
  const ENTITY_LIMIT: nat := 100
  const AUDIO_BYTE_LIMIT: real := 1_048_576.0

  // ---- Text ---------------------------------------------------------------------------------

  // `text.slice(-limit)` on UTF-16 units.
  function Clipped(text: string): (r: string) {
    if |text| <= TEXT_LIMIT then text else text[|text| - TEXT_LIMIT..]
  }

  datatype ProcessStatus = Running | Completed | Failed | Lost

  datatype Stream = Stream(text: string, truncated: bool)

  // One process entry; `streamed` tells for which streams output was received incrementally.
  datatype Process = Process(status: ProcessStatus, stdout: Stream, stderr: Stream,
                             stdoutStreamed: bool, stderrStreamed: bool)

  datatype Which = Stdout | Stderr

  datatype Chunk = Chunk(which: Which, decoded: string, capReached: bool)

  const NewStream := Stream("", false)
  const StartedProcess := Process(Running, NewStream, NewStream, false, false)

  function Appended(s: Stream, decoded: string, capReached: bool): Stream {
    Stream(Clipped(s.text + decoded), s.truncated || capReached || |s.text + decoded| > TEXT_LIMIT)
  }

  // An output delta: an entry that is no longer running starts again from nothing.
  function OutputStep(p: Option<Process>, chunk: Chunk): Process {
    var base := if p.Some? && p.value.status.Running? then p.value
                else if p.Some? then StartedProcess.(stdoutStreamed := p.value.stdoutStreamed, stderrStreamed := p.value.stderrStreamed)
                else StartedProcess;
    match chunk.which
    case Stdout => base.(stdout := Appended(base.stdout, chunk.decoded, chunk.capReached), stdoutStreamed := true)
    case Stderr => base.(stderr := Appended(base.stderr, chunk.decoded, chunk.capReached), stderrStreamed := true)
  }

  // What one stream shows after the exit: streamed output ends with what the decoder still held,
  // otherwise the captured output of the exit notification is taken.
  function FinishedStream(s: Stream, streamed: bool, tail: string, captured: string, capReached: bool): Stream {
    var output := if streamed then s.text + tail else captured;
    Stream(Clipped(output), capReached || s.truncated || |output| > TEXT_LIMIT)
  }

  datatype Exit = Exit(exitCode: int, stdout: string, stderr: string, stdoutCap: bool, stderrCap: bool,
                       stdoutTail: string, stderrTail: string)

  function CompleteStep(p: Option<Process>, exit: Exit): Process {
    var previous := if p.Some? then p.value else StartedProcess;
    if p.Some? && (previous.status.Completed? || previous.status.Failed?) then previous
    else
      Process(if exit.exitCode == 0 then Completed else Failed,
              FinishedStream(previous.stdout, previous.stdoutStreamed, exit.stdoutTail, exit.stdout, exit.stdoutCap),
              FinishedStream(previous.stderr, previous.stderrStreamed, exit.stderrTail, exit.stderr, exit.stderrCap),
              false, false)
  }

  function Outputs(p: Process, chunks: seq<Chunk>): Process {
    if chunks == [] then p
    else OutputStep(Some(Outputs(p, chunks[..|chunks| - 1])), chunks[|chunks| - 1])
  }

  // The full history of one stream.
  function FullText(chunks: seq<Chunk>, which: Which): string {
    if chunks == [] then ""
    else
      var last := chunks[|chunks| - 1];
      FullText(chunks[..|chunks| - 1], which) + (if last.which == which then last.decoded else "")
  }

  ghost predicate CapReported(chunks: seq<Chunk>, which: Which) {
    exists chunk <- chunks :: chunk.which == which && chunk.capReached
  }

  // Something was received for the stream.
  ghost predicate HasOutput(chunks: seq<Chunk>, which: Which) {
    exists chunk <- chunks :: chunk.which == which
  }

  function StreamOf(p: Process, which: Which): Stream {
    if which.Stdout? then p.stdout else p.stderr
  }

  lemma ClippingTwice(a: string, b: string)
    ensures Clipped(Clipped(a) + b) == Clipped(a + b)
    ensures |Clipped(a) + b| > TEXT_LIMIT || |a| > TEXT_LIMIT <==> |a + b| > TEXT_LIMIT || |a| > TEXT_LIMIT
    ensures |a| <= TEXT_LIMIT ==> Clipped(a) == a
  {
    if |a| > TEXT_LIMIT {
      var cut := |a| - TEXT_LIMIT;
      assert a[cut..] + b == (a + b)[cut..];
      assert (a + b)[cut..][|b|..] == (a + b)[cut + |b|..];
    }
  }

  // One more delta of a running process.
  lemma OutputGrows(p: Process, chunk: Chunk, which: Which)
    requires p.status.Running?
    ensures var r := OutputStep(Some(p), chunk);
            && r.status.Running?
            && StreamOf(r, which) == (if chunk.which == which then Appended(StreamOf(p, which), chunk.decoded, chunk.capReached)
                                      else StreamOf(p, which))
            && (Streamed(r, which) <==> chunk.which == which || Streamed(p, which))
  {
    hide Appended;
  }

  lemma AppendedSays(s: Stream, full: string, decoded: string, capReached: bool)
    requires s.text == Clipped(full) && (|full| > TEXT_LIMIT ==> s.truncated)
    ensures var r := Appended(s, decoded, capReached);
            && r.text == Clipped(full + decoded)
            && (r.truncated <==> s.truncated || capReached || |full + decoded| > TEXT_LIMIT)
  {
    hide Clipped;
    ClippingTwice(full, decoded);
  }

  predicate Streamed(p: Process, which: Which) {
    if which.Stdout? then p.stdoutStreamed else p.stderrStreamed
  }

  // The process shows what these deltas amount to in the stream.
  ghost predicate ShowsHistory(p: Process, chunks: seq<Chunk>, which: Which) {
    var full := FullText(chunks, which);
    && p.status.Running?
    && StreamOf(p, which).text == Clipped(full)
    && (StreamOf(p, which).truncated <==> |full| > TEXT_LIMIT || CapReported(chunks, which))
    && (Streamed(p, which) <==> HasOutput(chunks, which))
  }

  lemma OutputShowsMore(p: Process, chunks: seq<Chunk>, chunk: Chunk, which: Which)
    requires ShowsHistory(p, chunks, which)
    ensures ShowsHistory(OutputStep(Some(p), chunk), chunks + [chunk], which)
  {
    hide Clipped, CapReported, HasOutput, OutputStep, StreamOf, Streamed, Appended, FullText;
    OutputGrows(p, chunk, which);
    HistorySnoc(chunks, chunk, which);
    if chunk.which == which {
      AppendedSays(StreamOf(p, which), FullText(chunks, which), chunk.decoded, chunk.capReached);
    } else {
      assert FullText(chunks + [chunk], which) == FullText(chunks, which);
    }
  }

  lemma {:induction false} StreamIsClipped(chunks: seq<Chunk>, which: Which)
    ensures ShowsHistory(Outputs(StartedProcess, chunks), chunks, which)
  {
    if chunks != [] {
      hide ShowsHistory, OutputStep;
      var init := chunks[..|chunks| - 1];
      assert chunks == init + [chunks[|chunks| - 1]];
      StreamIsClipped(init, which);
      OutputShowsMore(Outputs(StartedProcess, init), init, chunks[|chunks| - 1], which);
    }
  }

  // After any sequence of output deltas, a stream shows the last 32768 units of everything that was
  // decoded for it, and is marked truncated exactly if something was cut or the server reported a cap.
  lemma StreamIsSuffixOfHistory(chunks: seq<Chunk>, which: Which)
    ensures var p := Outputs(StartedProcess, chunks);
            var full := FullText(chunks, which);
            && p.status.Running?
            && StreamOf(p, which).text == (if |full| <= 32768 then full else full[|full| - 32768..])
            && (StreamOf(p, which).truncated <==> |full| > 32768 || CapReported(chunks, which))
            && (Streamed(p, which) <==> HasOutput(chunks, which))
  {
    StreamIsClipped(chunks, which);
    hide CapReported, FullText, Outputs;
  }

  lemma HistorySnoc(init: seq<Chunk>, last: Chunk, which: Which)
    ensures CapReported(init + [last], which) <==> CapReported(init, which) || (last.which == which && last.capReached)
    ensures HasOutput(init + [last], which) <==> HasOutput(init, which) || last.which == which
    ensures FullText(init + [last], which) == FullText(init, which) + (if last.which == which then last.decoded else "")
  {
    assert (init + [last])[..|init|] == init;
    assert forall chunk :: chunk in init + [last] <==> chunk in init || chunk == last;
  }

  // The exit completes the picture: for a streamed stream the decoder's tail is part of the history,
  // for any other the captured output is all there is.
  lemma ExitShowsSuffixOfHistory(chunks: seq<Chunk>, which: Which, exit: Exit)
    ensures var p := CompleteStep(Some(Outputs(StartedProcess, chunks)), exit);
            var streamed := HasOutput(chunks, which);
            var full := if streamed then FullText(chunks, which) + (if which.Stdout? then exit.stdoutTail else exit.stderrTail)
                        else if which.Stdout? then exit.stdout else exit.stderr;
            && p.status == (if exit.exitCode == 0 then Completed else Failed)
            && StreamOf(p, which).text == (if |full| <= 32768 then full else full[|full| - 32768..])
            && (StreamOf(p, which).truncated <==>
                  |full| > 32768 || CapReported(chunks, which)
                  || (if which.Stdout? then exit.stdoutCap else exit.stderrCap))
  {
    StreamIsClipped(chunks, which);
    hide Outputs, FullText, CapReported;
    ClippingTwice(FullText(chunks, which), if which.Stdout? then exit.stdoutTail else exit.stderrTail);
    if !HasOutput(chunks, which) {
      NothingStreamed(chunks, which);
    }
  }

  // Output of a process that is not known starts it, and so does output after it ended or was lost, from
  // nothing; a second exit changes nothing.
  lemma OutputStartsTheProcess(p: Option<Process>, which: Which, decoded: string, capReached: bool, exit: Exit)
    requires p.None? || p.value.status != Running
    ensures var r := OutputStep(p, Chunk(which, decoded, capReached));
            var other := if which == Stdout then Stderr else Stdout;
            && r.status == Running
            && StreamOf(r, which) == Stream(if |decoded| <= 32768 then decoded else decoded[|decoded| - 32768..],
                                            capReached || |decoded| > 32768)
            && StreamOf(r, other) == Stream("", false)
    ensures p.Some? && p.value.status in {Completed, Failed} ==> CompleteStep(p, exit) == p.value
  {
    assert "" + decoded == decoded;
  }

  lemma {:induction false} NothingStreamed(chunks: seq<Chunk>, which: Which)
    requires forall chunk <- chunks :: chunk.which != which
    ensures FullText(chunks, which) == "" && !CapReported(chunks, which)
  {
    if chunks != [] {
      NothingStreamed(chunks[..|chunks| - 1], which);
    }
  }

  class ProcessEntry {
    var process: Option<Process>

    constructor ()
      ensures process == None
    {
      process := None;
    }

    method StartProcess()
      modifies this
      ensures process == Some(StartedProcess)
    {
      process := Some(StartedProcess);
    }

    method Output(which: Which, decoded: string, capReached: bool)
      modifies this
      ensures process == Some(OutputStep(old(process), Chunk(which, decoded, capReached)))
    {
      var previous := if process.Some? && process.value.status.Running? then process.value else StartedProcess;
      var streamedOut := process.Some? && process.value.stdoutStreamed;
      var streamedErr := process.Some? && process.value.stderrStreamed;
      var old' := if which.Stdout? then previous.stdout else previous.stderr;
      var output := old'.text + decoded;
      var next := Stream(Clipped(output), old'.truncated || capReached || |output| > TEXT_LIMIT);
      process := Some(if which.Stdout?
        then Process(Running, next, previous.stderr, true, streamedErr)
        else Process(Running, previous.stdout, next, streamedOut, true));
    }

    method Complete(exit: Exit)
      modifies this
      ensures process == Some(CompleteStep(old(process), exit))
    {
      if process.Some? && (process.value.status.Completed? || process.value.status.Failed?) {
        return;
      }
      var previous := if process.Some? then process.value else StartedProcess;
      var stdout := if previous.stdoutStreamed then previous.stdout.text + exit.stdoutTail else exit.stdout;
      var stderr := if previous.stderrStreamed then previous.stderr.text + exit.stderrTail else exit.stderr;
      process := Some(Process(
        if exit.exitCode == 0 then Completed else Failed,
        Stream(Clipped(stdout), exit.stdoutCap || previous.stdout.truncated || |stdout| > TEXT_LIMIT),
        Stream(Clipped(stderr), exit.stderrCap || previous.stderr.truncated || |stderr| > TEXT_LIMIT),
        false, false));
    }
  }

  // ---- Base64 sizes -----------------------------------------------------------------------------

  predicate EndsWith(value: string, suffix: string) {
    |suffix| <= |value| && value[|value| - |suffix|..] == suffix
  }

  function Base64ByteLength(value: string): real {
    (|value| * 3) as real / 4.0 - (if EndsWith(value, "==") then 2.0 else if EndsWith(value, "=") then 1.0 else 0.0)
  }

  type Byte = b: int | 0 <= b < 256

  // The base64 alphabet: A-Z, a-z, 0-9, plus and slash.
  function Digit(i: int): (c: char)
    requires 0 <= i < 64
    ensures c != '='
  {
    if i < 26 then (65 + i) as char
    else if i < 52 then (71 + i) as char
    else if i < 62 then (i - 4) as char
    else if i == 62 then '+' else '/'
  }

  // Section 4 of RFC 4648: groups of three bytes, the last one padded.
  function Encode(bytes: seq<Byte>): string {
    if bytes == [] then ""
    else if |bytes| == 1 then
      [Digit(bytes[0] / 4), Digit(bytes[0] % 4 * 16), '=', '=']
    else if |bytes| == 2 then
      [Digit(bytes[0] / 4), Digit(bytes[0] % 4 * 16 + bytes[1] / 16), Digit(bytes[1] % 16 * 4), '=']
    else
      [Digit(bytes[0] / 4), Digit(bytes[0] % 4 * 16 + bytes[1] / 16),
       Digit(bytes[1] % 16 * 4 + bytes[2] / 64), Digit(bytes[2] % 64)] + Encode(bytes[3..])
  }

  function Padding(n: nat): nat {
    if n % 3 == 1 then 2 else if n % 3 == 2 then 1 else 0
  }

  lemma {:induction false} EncodedLength(bytes: seq<Byte>)
    ensures 3 * |Encode(bytes)| == 4 * (|bytes| + Padding(|bytes|))
    decreases |bytes|
  {
    if |bytes| >= 3 {
      EncodedLength(bytes[3..]);
    }
  }

  lemma {:induction false} EncodedPadding(bytes: seq<Byte>)
    requires bytes != []
    ensures var e := Encode(bytes);
            && |e| >= 4
            && (e[|e| - 1] == '=' <==> Padding(|bytes|) > 0)
            && (e[|e| - 2] == '=' <==> Padding(|bytes|) == 2)
    decreases |bytes|
  {
    hide Digit;
    if |bytes| > 3 {
      var rest, all := Encode(bytes[3..]), Encode(bytes);
      EncodedPadding(bytes[3..]);
      assert all[|all| - 1] == rest[|rest| - 1] && all[|all| - 2] == rest[|rest| - 2];
    } else if |bytes| == 3 {
      assert bytes[3..] == [];
    }
  }

  lemma EndsWithPadding(value: string)
    requires |value| >= 4
    ensures EndsWith(value, "=") <==> value[|value| - 1] == '='
    ensures EndsWith(value, "==") <==> value[|value| - 1] == '=' && value[|value| - 2] == '='
  {
    assert value[|value| - 1..] == [value[|value| - 1]];
    assert value[|value| - 2..] == [value[|value| - 2], value[|value| - 1]];
    assert "==" == ['=', '='];
  }

  // The estimate from the length and the padding is the exact number of encoded bytes.
  lemma SizeOfEncodedBytesIsExact(bytes: seq<Byte>)
    ensures Base64ByteLength(Encode(bytes)) == |bytes| as real
  {
    hide Encode, EndsWith;
    EncodedLength(bytes);
    if bytes == [] {
      EmptyEncoding();
    } else {
      EncodedPadding(bytes);
      EndsWithPadding(Encode(bytes));
    }
    assert (|Encode(bytes)| * 3) as real == (4 * (|bytes| + Padding(|bytes|))) as real;
  }

  lemma EmptyEncoding()
    ensures Encode([]) == "" && !EndsWith("", "=") && !EndsWith("", "==")
  {
  }

  // What a forgiving decoder produces from text without white space: at most two padding characters
  // are dropped from complete groups, and each pair of digits or more in the last group gives bytes.
  function DecodedLength(value: string): nat {
    var digits := if |value| % 4 != 0 then |value|
                  else if EndsWith(value, "==") then |value| - 2
                  else if EndsWith(value, "=") then |value| - 1
                  else |value|;
    digits * 3 / 4
  }

  // On decodable text the estimate is exact precisely when the text is padded to whole groups.
  lemma SizeIsExactIffPadded(value: string)
    requires |value| % 4 != 1
    requires |value| % 4 != 0 ==> !EndsWith(value, "=") && !EndsWith(value, "==")
    ensures Base64ByteLength(value) == DecodedLength(value) as real <==> |value| % 4 == 0
  {
    var k, m := |value| / 4, |value| % 4;
    assert (|value| * 3) as real / 4.0 == (3 * k) as real + (3 * m) as real / 4.0;
  }

  // ---- Audio ------------------------------------------------------------------------------------

  datatype Format = Format(sampleRate: nat, numChannels: nat, itemId: string)

  datatype Audio = Audio(format: Format, data: string)

  datatype Realtime = Realtime(chunks: seq<Audio>, audioChunks: nat, audioBytes: nat, audioTruncated: bool)

  const EmptyRealtime := Realtime([], 0, 0, false)

  function Size(chunks: seq<Audio>): real {
    if chunks == [] then 0.0 else Base64ByteLength(chunks[0].data) + Size(chunks[1..])
  }

  predicate Retained(audio: Audio) {
    DecodedLength(audio.data) as real <= AUDIO_BYTE_LIMIT
  }

  // The while loop that shifts chunks while a bound is exceeded.
  function Shifted(chunks: seq<Audio>): seq<Audio> {
    if chunks != [] && (Size(chunks) > AUDIO_BYTE_LIMIT || |chunks| > ENTITY_LIMIT) then Shifted(chunks[1..]) else chunks
  }

  predicate SameFormatAsLast(chunks: seq<Audio>, audio: Audio) {
    chunks == [] || chunks[|chunks| - 1].format == audio.format
  }

  function AudioStep(v: Realtime, audio: Audio): Realtime {
    var retained := Retained(audio);
    var same := SameFormatAsLast(v.chunks, audio);
    var candidates := if retained then (if same then v.chunks else []) + [audio] else [];
    var chunks := Shifted(candidates);
    Realtime(chunks, v.audioChunks + 1, v.audioBytes + DecodedLength(audio.data),
             v.audioTruncated || !same || !retained || |chunks| < |candidates|)
  }

  function AudioRun(history: seq<Audio>): Realtime {
    if history == [] then EmptyRealtime
    else AudioStep(AudioRun(history[..|history| - 1]), history[|history| - 1])
  }

  // A block of audio that may be kept: one format, within the bounds, no oversized chunk.
  ghost predicate Keepable(chunks: seq<Audio>) {
    && |chunks| <= ENTITY_LIMIT
    && Size(chunks) <= AUDIO_BYTE_LIMIT
    && (forall i :: 0 <= i < |chunks| ==> Retained(chunks[i]) && chunks[i].format == chunks[0].format)
  }

  // The longest suffix of the history that may be kept.
  ghost function LongestKeepable(history: seq<Audio>): (r: seq<Audio>)
    ensures Keepable(r) && |r| <= |history| && r == history[|history| - |r|..]
    ensures forall i :: 0 <= i < |history| - |r| ==> !Keepable(history[i..])
  {
    if Keepable(history) then history
    else
      var r := LongestKeepable(history[1..]);
      assert history[0..] == history;
      assert forall i :: 1 <= i <= |history| ==> history[i..] == history[1..][i - 1..];
      r
  }

  // Only values whose size is not negative occur: "=" or "==" alone is not base64.
  ghost predicate Sized(history: seq<Audio>) {
    forall audio <- history :: Base64ByteLength(audio.data) >= 0.0
  }

  lemma {:induction false} SizeSnoc(chunks: seq<Audio>, audio: Audio)
    ensures Size(chunks + [audio]) == Size(chunks) + Base64ByteLength(audio.data)
  {
    if chunks == [] {
      assert chunks + [audio] == [audio];
      assert [audio][1..] == [];
    } else {
      SizeSnoc(chunks[1..], audio);
      assert (chunks + [audio])[1..] == chunks[1..] + [audio];
    }
  }

  lemma KeepablePrefix(chunks: seq<Audio>, audio: Audio)
    requires Keepable(chunks + [audio]) && Base64ByteLength(audio.data) >= 0.0
    ensures Keepable(chunks) && SameFormatAsLast(chunks, audio) && Retained(audio)
  {
    var all := chunks + [audio];
    SizeSnoc(chunks, audio);
    assert forall i :: 0 <= i < |chunks| ==> all[i] == chunks[i];
    assert all[|chunks|] == audio;
  }

  // Nothing before the kept block can matter for the next chunk.
  lemma {:induction false} LongestForgetsThePast(history: seq<Audio>, audio: Audio)
    requires Base64ByteLength(audio.data) >= 0.0
    ensures LongestKeepable(history + [audio]) == LongestKeepable(LongestKeepable(history) + [audio])
  {
    if !Keepable(history) {
      var all := history + [audio];
      if Keepable(all) {
        KeepablePrefix(history, audio);
      }
      assert all[1..] == history[1..] + [audio];
      LongestForgetsThePast(history[1..], audio);
    }
  }

  lemma {:induction false} ShiftedIsLongest(chunks: seq<Audio>)
    requires forall i :: 0 <= i < |chunks| ==> Retained(chunks[i]) && chunks[i].format == chunks[0].format
    ensures Shifted(chunks) == LongestKeepable(chunks)
  {
    if chunks != [] && (Size(chunks) > AUDIO_BYTE_LIMIT || |chunks| > ENTITY_LIMIT) {
      assert forall i :: 0 <= i < |chunks| - 1 ==> chunks[1..][i] == chunks[i + 1];
      ShiftedIsLongest(chunks[1..]);
    }
  }

  lemma {:induction false} OnlyTheNewFormat(chunks: seq<Audio>, audio: Audio)
    requires Base64ByteLength(audio.data) >= 0.0
    requires !Retained(audio) || !SameFormatAsLast(chunks, audio)
    ensures LongestKeepable(chunks + [audio]) == (if Retained(audio) then Shifted([audio]) else [])
  {
    var all := chunks + [audio];
    if chunks == [] {
      assert all == [audio];
      assert !Keepable(all) by { if Keepable(all) { KeepablePrefix(chunks, audio); } }
      assert all[1..] == [];
    } else {
      if Keepable(all) {
        KeepablePrefix(chunks, audio);
      }
      assert all[1..] == chunks[1..] + [audio];
      if !Retained(audio) || |chunks| > 1 {
        OnlyTheNewFormat(chunks[1..], audio);
      } else {
        assert all[1..] == [audio];
        ShiftedIsLongest([audio]);
      }
    }
  }

  lemma KeptHasOneFormat(chunks: seq<Audio>, audio: Audio)
    requires Keepable(chunks) && SameFormatAsLast(chunks, audio) && Retained(audio)
    ensures var all := chunks + [audio];
            forall i :: 0 <= i < |all| ==> Retained(all[i]) && all[i].format == all[0].format
  {
  }

  lemma StepKeepsLongest(v: Realtime, audio: Audio)
    requires Base64ByteLength(audio.data) >= 0.0 && Keepable(v.chunks)
    ensures AudioStep(v, audio).chunks == LongestKeepable(v.chunks + [audio])
  {
    hide Keepable, Size, Shifted, Retained;
    if Retained(audio) && SameFormatAsLast(v.chunks, audio) {
      KeptHasOneFormat(v.chunks, audio);
      ShiftedIsLongest(v.chunks + [audio]);
    } else {
      OnlyTheNewFormat(v.chunks, audio);
      ShiftedIsLongest([]);
      assert LongestKeepable([]) == [];
      assert [] + [audio] == [audio];
    }
  }

  lemma {:induction false} ShiftedShortens(chunks: seq<Audio>)
    ensures |Shifted(chunks)| <= |chunks|
  {
    hide Size;
    if chunks != [] {
      ShiftedShortens(chunks[1..]);
    }
  }

  // The flag records exactly that something was dropped in this step or before.
  lemma StepFlags(v: Realtime, audio: Audio, received: nat)
    requires |v.chunks| <= received && (v.audioTruncated <==> |v.chunks| < received)
    ensures var v' := AudioStep(v, audio);
            |v'.chunks| <= received + 1 && (v'.audioTruncated <==> |v'.chunks| < received + 1)
  {
    hide Size, Retained;
    ShiftedShortens((if SameFormatAsLast(v.chunks, audio) then v.chunks else []) + [audio]);
    ShiftedShortens([]);
  }

  // The entry shows the longest suffix of everything received; the flag is set exactly if some
  // received chunk is no longer kept; the counter covers everything received.
  ghost predicate Shows(v: Realtime, received: seq<Audio>) {
    && v.chunks == LongestKeepable(received)
    && (v.audioTruncated <==> |v.chunks| < |received|)
    && v.audioChunks == |received|
  }

  lemma StepShows(v: Realtime, received: seq<Audio>, audio: Audio)
    requires Shows(v, received) && Base64ByteLength(audio.data) >= 0.0
    ensures Shows(AudioStep(v, audio), received + [audio])
  {
    hide Keepable, AudioStep;
    LongestForgetsThePast(received, audio);
    StepKeepsLongest(v, audio);
    StepFlags(v, audio, |received|);
    StepCounts(v, audio);
  }

  // After any audio deltas since the session started, the kept chunks are the longest suffix of all
  // received chunks that has one format, at most a hundred chunks and at most 1 MiB.
  lemma {:induction false} AudioIsLongestSuffix(history: seq<Audio>)
    requires Sized(history)
    ensures Shows(AudioRun(history), history)
  {
    hide Shows, AudioStep;
    if history != [] {
      var init, last := history[..|history| - 1], history[|history| - 1];
      assert last in history;
      AudioIsLongestSuffix(init);
      assert history == init + [last];
      StepShows(AudioRun(init), init, last);
    } else {
      NothingShown();
    }
  }

  // The byte counter covers everything received, kept or not.
  lemma {:induction false} AudioBytesAreCounted(history: seq<Audio>)
    ensures AudioRun(history).audioBytes == TotalLength(history) && AudioRun(history).audioChunks == |history|
  {
    if history != [] {
      AudioBytesAreCounted(history[..|history| - 1]);
    }
  }

  function TotalLength(history: seq<Audio>): nat {
    if history == [] then 0 else TotalLength(history[..|history| - 1]) + DecodedLength(history[|history| - 1].data)
  }

  lemma NothingShown()
    ensures Shows(EmptyRealtime, [])
  {
  }

  lemma StepCounts(v: Realtime, audio: Audio)
    ensures AudioStep(v, audio).audioChunks == v.audioChunks + 1
    ensures AudioStep(v, audio).audioBytes == v.audioBytes + DecodedLength(audio.data)
  {
  }

  class RealtimeEntry {
    var chunks: seq<Audio>
    var audioChunks: nat
    var audioBytes: nat
    var audioTruncated: bool

    ghost function View(): Realtime
      reads this
    {
      Realtime(chunks, audioChunks, audioBytes, audioTruncated)
    }

    constructor Started()
      ensures View() == EmptyRealtime
    {
      chunks, audioChunks, audioBytes, audioTruncated := [], 0, 0, false;
    }

    method OutputAudioDelta(audio: Audio)
      modifies this
      ensures View() == old(AudioStep(View(), audio))
    {
      var bytes := DecodedLength(audio.data);
      var retained := bytes as real <= AUDIO_BYTE_LIMIT;
      var sameFormat := chunks == [] || chunks[|chunks| - 1].format == audio.format;
      var kept := if retained then (if sameFormat then chunks else []) + [audio] else [];
      ghost var candidates := kept;
      var dropped := !sameFormat || !retained;
      var size := TotalSize(kept);
      while kept != [] && (size > AUDIO_BYTE_LIMIT || |kept| > ENTITY_LIMIT)
        invariant size == Size(kept) && Shifted(kept) == Shifted(candidates)
        invariant |kept| <= |candidates|
        invariant dropped <==> !sameFormat || !retained || |kept| < |candidates|
        decreases |kept|
      {
        size := size - Base64ByteLength(kept[0].data);
        kept := kept[1..];
        dropped := true;
      }
      chunks := kept;
      audioChunks := audioChunks + 1;
      audioBytes := audioBytes + bytes;
      audioTruncated := audioTruncated || dropped;
    }

    method Disconnect()
      modifies this
      ensures View() == old(View()).(chunks := [])
    {
      chunks := [];
    }
  }

  method TotalSize(chunks: seq<Audio>) returns (size: real)
    ensures size == Size(chunks)
  {
    size := 0.0;
    assert chunks[..0] == [] && Size([]) == 0.0;
    hide Size, Base64ByteLength;
    for i := 0 to |chunks|
      invariant size == Size(chunks[..i])
    {
      SizeSnoc(chunks[..i], chunks[i]);
      assert chunks[..i + 1] == chunks[..i] + [chunks[i]];
      size := size + Base64ByteLength(chunks[i].data);
    }
    assert chunks[..|chunks|] == chunks;
  }
}
