/**
 * routes/juice_vrse.py: POST /juice-vrse separates a track into stems,
 * converts the vocal stem chunk by chunk (split at silences, one conversion
 * per chunk at the chunk's own detected pitch), concatenates the converted
 * chunks, overlays the result on the background stem and stores the mix.
 */
module JuiceVrse {
  import opened Wrappers
  import opened Text
  import opened Py
  import opened Services
  import opened Steps

  const JuiceBucket := "huggingbass-bucket"
  const ConversionSpace := "mealss/rvc_zero"
  const SeparatorSpace := "mealss/Audio_separator"
  /** split_on_silence thresholds: milliseconds, and dBFS. */
  const MinSilenceLen := 1000
  const SilenceThresh := -22
  const ModelWeightsUrl := "https://storage.googleapis.com/huggingbass-bucket/model.pth"
  const ModelIndexUrl := "https://storage.googleapis.com/huggingbass-bucket/model.index"
  const ChunkFolder := "/tmp"
  const CombinedPath := "/tmp/combined.wav"

  /* ---------------- infer_audio_juice_vrse: the chunk loop ---------------- */

  /** The file chunk i is exported to: os.path.join("/tmp", f"chunk{i}.wav"). */
  function ChunkPath(i: nat): string {
    Join(ChunkFolder, "chunk" + IntToString(i) + ".wav")
  }

  /** Distinct chunk indices use distinct files. */
  lemma ChunkPathInjective(i: nat, j: nat)
    requires ChunkPath(i) == ChunkPath(j)
    ensures i == j
  {
    var a, b := "chunk" + IntToString(i) + ".wav", "chunk" + IntToString(j) + ".wav";
    assert a[0] == 'c' && b[0] == 'c';
    JoinInjective(ChunkFolder, a, b);
    FrameCancel("chunk", IntToString(i), IntToString(j), ".wav");
    IntToStringInjective(i, j);
  }

  /** The conversion of chunk i: every parameter but the pitch is the same constant for all chunks. */
  function ChunkCall(i: nat, pitch: real, pth: string, idx: string): Call {
    Call(ConversionSpace, Run(ConversionRequest([FileArg(ChunkPath(i))], TextArg(pth), "rmvpe+", pitch,
                                                TextArg(idx), 0.75, 3, 0.25, 0.5)))
  }

  /** The parameters every chunk conversion shares: the Space, the model files
      passed as plain strings, the "rmvpe+" pitch algorithm, index influence
      0.75, filter radius 3, envelope ratio 0.25, breath protection 0.5. */
  predicate FixedChunkParameters(c: Call, pth: string, idx: string) {
    && c.space == ConversionSpace && c.request.Run?
    && c.request.conversion.model == TextArg(pth) && c.request.conversion.index == TextArg(idx)
    && c.request.conversion.pitchAlgorithm == "rmvpe+" && c.request.conversion.indexInfluence == 0.75
    && c.request.conversion.filterRadius == 3 && c.request.conversion.envelopeRatio == 0.25
    && c.request.conversion.breathProtection == 0.5
  }

  /** The calls for the first n chunks, each at the pitch detected on that chunk. */
  function ChunkCalls(detectPitch: Audio -> real, chunks: seq<Audio>, pth: string, idx: string, n: nat): seq<Call>
    requires n <= |chunks|
  {
    seq(n, k requires 0 <= k < n => ChunkCall(k, detectPitch(chunks[k]), pth, idx))
  }

  /** Call k sends the file of chunk k, and only it, at the pitch detected on
      chunk k; every other parameter is the same constant on every call. */
  lemma ChunkCallsConvertEachChunk(detectPitch: Audio -> real, chunks: seq<Audio>, pth: string, idx: string, n: nat)
    requires n <= |chunks|
    ensures |ChunkCalls(detectPitch, chunks, pth, idx, n)| == n
    ensures forall k :: 0 <= k < n ==>
      && ConvertsAt(ChunkCalls(detectPitch, chunks, pth, idx, n)[k], detectPitch(chunks[k]))
      && ChunkCalls(detectPitch, chunks, pth, idx, n)[k].request.conversion.audioFiles == [FileArg(ChunkPath(k))]
      && FixedChunkParameters(ChunkCalls(detectPitch, chunks, pth, idx, n)[k], pth, idx)
  {
    var calls := ChunkCalls(detectPitch, chunks, pth, idx, n);
    forall k | 0 <= k < n
      ensures && ConvertsAt(calls[k], detectPitch(chunks[k]))
              && calls[k].request.conversion.audioFiles == [FileArg(ChunkPath(k))]
              && FixedChunkParameters(calls[k], pth, idx)
    {
      assert calls[k] == ChunkCall(k, detectPitch(chunks[k]), pth, idx);
    }
  }

  /** What each chunk's reply gives after the error check and `result[0]`. */
  function ChunkOutcomes(respond: Call -> Reply, detectPitch: Audio -> real, chunks: seq<Audio>,
                         pth: string, idx: string): seq<Outcome<string>>
  {
    seq(|chunks|, k requires 0 <= k < |chunks| => CheckedFirst(respond(ChunkCall(k, detectPitch(chunks[k]), pth, idx))))
  }

  /** The local files after exporting the chunks one after another. */
  function ExportAll(files: map<string, Audio>, chunks: seq<Audio>): map<string, Audio> {
    if chunks == [] then files
    else ExportAll(files, chunks[..|chunks| - 1])[ChunkPath(|chunks| - 1) := chunks[|chunks| - 1]]
  }

  /** After the exports, every chunk is still in its own file: no later export overwrote it. */
  lemma {:induction false} ExportAllReadBack(files: map<string, Audio>, chunks: seq<Audio>, k: nat)
    requires k < |chunks|
    ensures ChunkPath(k) in ExportAll(files, chunks)
    ensures ExportAll(files, chunks)[ChunkPath(k)] == chunks[k]
  {
    var n := |chunks| - 1;
    if k < n {
      ExportAllReadBack(files, chunks[..n], k);
      assert chunks[..n][k] == chunks[k];
      if ChunkPath(n) == ChunkPath(k) {
        ChunkPathInjective(n, k);
      }
    }
  }

  /** Lines 70-93, one iteration: export chunk i to its file, detect its
      pitch from that file, convert it, and check the reply. The calls and
      files so far are those of chunks 0 to i - 1; afterwards they are those
      of chunks 0 to i. */
  method ConvertChunk(i: nat, chunks: seq<Audio>, pth: string, idx: string, detectPitch: Audio -> real,
                      gradio: Gradio, disk: Disk, ghost calls0: seq<Call>, ghost files0: map<string, Audio>)
    returns (out: Outcome<string>)
    requires i < |chunks|
    requires gradio.calls == calls0 + ChunkCalls(detectPitch, chunks, pth, idx, i)
    requires disk.files == ExportAll(files0, chunks[..i])
    modifies gradio, disk
    ensures disk.files == ExportAll(files0, chunks[..i + 1])
    ensures gradio.calls == calls0 + ChunkCalls(detectPitch, chunks, pth, idx, i + 1)
    ensures |ChunkOutcomes(gradio.respond, detectPitch, chunks, pth, idx)| == |chunks|
    ensures out == ChunkOutcomes(gradio.respond, detectPitch, chunks, pth, idx)[i]
  {
    ExportAllNext(files0, chunks, i);
    ChunkCallsNext(calls0, detectPitch, chunks, pth, idx, i);
    ChunkOutcomeAt(gradio.respond, detectPitch, chunks, pth, idx, i);
    var chunkPath := ChunkPath(i);
    disk.Export(chunkPath, chunks[i]);
    var chunkPitch := detectPitch(disk.files[chunkPath]);
    assert chunkPitch == detectPitch(chunks[i]);
    var result := gradio.Predict(ChunkCall(i, chunkPitch, pth, idx));
    out := CheckedFirst(result);
  }

  /** Lines 68-95: for each chunk in index order, export it, detect its pitch,
      convert it, raise on an error reply, and append `result[0]`. */
  method InferChunks(chunks: seq<Audio>, pth: string, idx: string, detectPitch: Audio -> real,
                     gradio: Gradio, disk: Disk) returns (r: Outcome<seq<string>>)
    modifies gradio, disk
    ensures var outs := ChunkOutcomes(gradio.respond, detectPitch, chunks, pth, idx);
      && r == Collect(outs)
      && gradio.calls == old(gradio.calls) + ChunkCalls(detectPitch, chunks, pth, idx, Attempted(outs))
      && disk.files == ExportAll(old(disk.files), chunks[..Attempted(outs)])
  {
    ghost var outs := ChunkOutcomes(gradio.respond, detectPitch, chunks, pth, idx);
    ghost var calls0, files0 := gradio.calls, disk.files;
    var inferred: seq<string> := [];
    for i := 0 to |chunks|
      invariant |inferred| == i
      invariant forall k :: 0 <= k < i ==> outs[k] == Ok(inferred[k])
      invariant gradio.calls == calls0 + ChunkCalls(detectPitch, chunks, pth, idx, i)
      invariant disk.files == ExportAll(files0, chunks[..i])
    {
      var out := ConvertChunk(i, chunks, pth, idx, detectPitch, gradio, disk, calls0, files0);
      if out.Raised? {
        StopsAt(outs, i);
        r := Raised(out.error);
        return;
      }
      CollectedNext(outs, inferred, i);
      inferred := inferred + [out.value];
    }
    assert chunks[..|chunks|] == chunks;
    RunsThrough(outs, inferred);
    r := Ok(inferred);
  }

  lemma ChunkOutcomeAt(respond: Call -> Reply, detectPitch: Audio -> real, chunks: seq<Audio>,
                        pth: string, idx: string, i: nat)
    requires i < |chunks|
    ensures |ChunkOutcomes(respond, detectPitch, chunks, pth, idx)| == |chunks|
    ensures ChunkOutcomes(respond, detectPitch, chunks, pth, idx)[i] ==
            CheckedFirst(respond(ChunkCall(i, detectPitch(chunks[i]), pth, idx)))
  {
  }

  lemma ChunkCallsNext(calls0: seq<Call>, detectPitch: Audio -> real, chunks: seq<Audio>, pth: string, idx: string, i: nat)
    requires i < |chunks|
    ensures calls0 + ChunkCalls(detectPitch, chunks, pth, idx, i + 1) ==
            (calls0 + ChunkCalls(detectPitch, chunks, pth, idx, i)) + [ChunkCall(i, detectPitch(chunks[i]), pth, idx)]
  {
    assert ChunkCalls(detectPitch, chunks, pth, idx, i + 1) ==
           ChunkCalls(detectPitch, chunks, pth, idx, i) + [ChunkCall(i, detectPitch(chunks[i]), pth, idx)];
  }

  lemma ExportAllNext(files: map<string, Audio>, chunks: seq<Audio>, i: nat)
    requires i < |chunks|
    ensures ExportAll(files, chunks[..i + 1]) == ExportAll(files, chunks[..i])[ChunkPath(i) := chunks[i]]
  {
    assert chunks[..i + 1][..i] == chunks[..i];
  }

  /** When the loop completes, it holds one entry per chunk, entry k being
      `result[0]` of chunk k's conversion, none of which replied with an error. */
  lemma ChunkResultsInOrder(respond: Call -> Reply, detectPitch: Audio -> real, chunks: seq<Audio>,
                            pth: string, idx: string)
    requires Collect(ChunkOutcomes(respond, detectPitch, chunks, pth, idx)).Ok?
    ensures var inferred := Collect(ChunkOutcomes(respond, detectPitch, chunks, pth, idx)).value;
      && |inferred| == |chunks|
      && forall k :: 0 <= k < |chunks| ==>
           var reply := respond(ChunkCall(k, detectPitch(chunks[k]), pth, idx));
           !HasError(reply) && reply.Items? && |reply.items| > 0 && inferred[k] == reply.items[0]
  {
    var outs := ChunkOutcomes(respond, detectPitch, chunks, pth, idx);
    CollectOk(outs);
    forall k | 0 <= k < |chunks|
      ensures var reply := respond(ChunkCall(k, detectPitch(chunks[k]), pth, idx));
        !HasError(reply) && reply.Items? && |reply.items| > 0 && Collect(outs).value[k] == reply.items[0]
    {
      assert outs[k] == CheckedFirst(respond(ChunkCall(k, detectPitch(chunks[k]), pth, idx)));
    }
  }

  /** The first chunk whose reply carries "error" ends the loop: exactly the
      chunks up to it are converted, and its exception is the one raised. */
  lemma FirstErrorStopsLoop(respond: Call -> Reply, detectPitch: Audio -> real, chunks: seq<Audio>,
                            pth: string, idx: string, j: nat)
    requires j < |chunks|
    requires forall k :: 0 <= k < j ==> CheckedFirst(respond(ChunkCall(k, detectPitch(chunks[k]), pth, idx))).Ok?
    requires HasError(respond(ChunkCall(j, detectPitch(chunks[j]), pth, idx)))
    ensures var outs := ChunkOutcomes(respond, detectPitch, chunks, pth, idx);
      && Attempted(outs) == j + 1
      && Collect(outs) == Raised(CheckedFirst(respond(ChunkCall(j, detectPitch(chunks[j]), pth, idx))).error)
  {
    var outs := ChunkOutcomes(respond, detectPitch, chunks, pth, idx);
    forall k | 0 <= k < j
      ensures outs[k].Ok?
    {
      assert outs[k] == CheckedFirst(respond(ChunkCall(k, detectPitch(chunks[k]), pth, idx)));
    }
    assert outs[j] == CheckedFirst(respond(ChunkCall(j, detectPitch(chunks[j]), pth, idx)));
    LeadingOkIs(outs, j);
  }

  /* ---------------- infer_audio_juice_vrse: reassembly ---------------- */

  /** `combined = AudioSegment.empty()` followed by `combined += part` for each part in order. */
  function ConcatAll(parts: seq<Audio>): Audio {
    if parts == [] then [] else ConcatAll(parts[..|parts| - 1]) + parts[|parts| - 1]
  }

  /** Concatenating a list in two pieces is concatenating the two results. */
  lemma {:induction false} ConcatAllAppend(a: seq<Audio>, b: seq<Audio>)
    ensures ConcatAll(a + b) == ConcatAll(a) + ConcatAll(b)
    decreases |b|
  {
    if b == [] {
      assert a + b == a;
    } else {
      var front := b[..|b| - 1];
      assert (a + b)[..|a + b| - 1] == a + front;
      ConcatAllAppend(a, front);
    }
  }

  /** Where part k starts in the concatenation: after all parts before it. */
  function Offset(parts: seq<Audio>, k: nat): nat
    requires k <= |parts|
  {
    |ConcatAll(parts[..k])|
  }

  /** Part k sits in the concatenation, unchanged, right after parts 0..k-1. */
  lemma ConcatAllPlacesPart(parts: seq<Audio>, k: nat)
    requires k < |parts|
    ensures Offset(parts, k) + |parts[k]| <= |ConcatAll(parts)|
    ensures ConcatAll(parts)[Offset(parts, k)..Offset(parts, k) + |parts[k]|] == parts[k]
  {
    assert parts == parts[..k + 1] + parts[k + 1..];
    ConcatAllAppend(parts[..k + 1], parts[k + 1..]);
    assert parts[..k + 1][..k] == parts[..k];
  }

  /** AudioSegment.from_file(chunk) for each inferred chunk, in list order. */
  function Loaded(inferred: seq<string>, load: string -> Audio): (parts: seq<Audio>)
    ensures |parts| == |inferred|
  {
    seq(|inferred|, k requires 0 <= k < |inferred| => load(inferred[k]))
  }

  /** Lines 98-100. */
  method CombineChunks(inferred: seq<string>, load: string -> Audio) returns (combined: Audio)
    ensures combined == ConcatAll(Loaded(inferred, load))
    ensures inferred == [] ==> combined == []
  {
    combined := [];
    for i := 0 to |inferred|
      invariant combined == ConcatAll(Loaded(inferred[..i], load))
    {
      assert Loaded(inferred[..i + 1], load)[..i] == Loaded(inferred[..i], load);
      combined := combined + load(inferred[i]);
    }
    assert inferred[..|inferred|] == inferred;
  }

  /** The blob the converted vocal is stored at, under a fresh id. */
  function JuiceOutputPath(randomId: string): string {
    "juice-inferred-audios/" + randomId + "/isolated-vocal.wav"
  }

  /** The state the route changes: the calls to the two Spaces, the URLs
      downloaded, the local files, and the bucket's uploads. */
  datatype World = World(calls: seq<Call>, fetched: seq<string>, files: map<string, Audio>, uploads: seq<Upload>)

  /** The chunks a downloaded reference is split into at silences. */
  function ReferenceChunks(decodeWav: string -> Audio, splitOnSilence: (Audio, int, int, bool) -> seq<Audio>,
                           content: string): seq<Audio>
  {
    splitOnSilence(decodeWav(content), MinSilenceLen, SilenceThresh, true)
  }

  /** What infer_audio_juice_vrse returns and the state it leaves: the
      reference is downloaded; an HTTP error status raises before any call;
      otherwise the chunks are converted up to the first failure, and only
      when all of them succeed is their concatenation exported to
      /tmp/combined.wav and uploaded under the fresh id. */
  function InferStage(respond: Call -> Reply, get: string -> HttpResponse, bucketName: string,
                      decodeWav: string -> Audio, splitOnSilence: (Audio, int, int, bool) -> seq<Audio>,
                      detectPitch: Audio -> real, load: string -> Audio,
                      pth: string, idx: string, referenceUrl: string, randomId: string, w: World): (Outcome<string>, World)
  {
    var response := get(referenceUrl);
    var downloaded := w.(fetched := w.fetched + [referenceUrl]);
    if IsHttpError(response) then (Raised(HttpError(response.status)), downloaded)
    else
      var chunks := ReferenceChunks(decodeWav, splitOnSilence, response.content);
      var outs := ChunkOutcomes(respond, detectPitch, chunks, pth, idx);
      var converted := downloaded.(calls := w.calls + ChunkCalls(detectPitch, chunks, pth, idx, Attempted(outs)),
                                   files := ExportAll(w.files, chunks[..Attempted(outs)]));
      match Collect(outs)
      case Raised(e) => (Raised(e), converted)
      case Ok(inferred) =>
        (Ok(PublicUrl(bucketName, JuiceOutputPath(randomId))),
         converted.(files := converted.files[CombinedPath := ConcatAll(Loaded(inferred, load))],
                    uploads := w.uploads + [Upload(JuiceOutputPath(randomId), CombinedPath)]))
  }

  /** infer_audio_juice_vrse. */
  method InferAudioJuiceVrse(pth: string, idx: string, referenceUrl: string, randomId: string,
                             decodeWav: string -> Audio, splitOnSilence: (Audio, int, int, bool) -> seq<Audio>,
                             detectPitch: Audio -> real, load: string -> Audio,
                             web: Web, gradio: Gradio, disk: Disk, bucket: Bucket) returns (r: Outcome<string>)
    modifies web, gradio, disk, bucket
    ensures (r, World(gradio.calls, web.fetched, disk.files, bucket.uploads)) ==
            InferStage(gradio.respond, web.respond, bucket.name, decodeWav, splitOnSilence, detectPitch, load,
                       pth, idx, referenceUrl, randomId,
                       World(old(gradio.calls), old(web.fetched), old(disk.files), old(bucket.uploads)))
  {
    var response := web.Get(referenceUrl);
    if IsHttpError(response) {
      return Raised(HttpError(response.status));
    }
    var audio := decodeWav(response.content);
    var chunks := splitOnSilence(audio, MinSilenceLen, SilenceThresh, true);
    var inferred := InferChunks(chunks, pth, idx, detectPitch, gradio, disk);
    if inferred.Raised? {
      return Raised(inferred.error);
    }
    CollectOk(ChunkOutcomes(gradio.respond, detectPitch, chunks, pth, idx));
    assert chunks[..|chunks|] == chunks;
    var combined := CombineChunks(inferred.value, load);
    disk.Export(CombinedPath, combined);
    var url := bucket.UploadFromFile(JuiceOutputPath(randomId), CombinedPath);
    r := Ok(url);
  }

  /* ---------------- split_for_juice ---------------- */

  /** A blob of the separated stems, under the run's fresh id. */
  function StemPath(randomId: string, file: string): string {
    "juice-seperated-files/" + randomId + "/" + file
  }

  /** The files the four stems are stored as, in call order. */
  function StemFiles(): seq<string> {
    ["all-vocals.wav", "background.wav", "primary-vocal.wav", "deverbed-vocal.wav"]
  }

  /** Different runs (different fresh ids) never share a stem blob. */
  lemma StemPathsSeparateRuns(id1: string, id2: string, file: string)
    requires StemPath(id1, file) == StemPath(id2, file)
    ensures id1 == id2
  {
    var p := "juice-seperated-files/";
    assert p + id1 + "/" + file == p + id1 + ("/" + file);
    assert p + id2 + "/" + file == p + id2 + ("/" + file);
    FrameCancel(p, id1, id2, "/" + file);
  }

  function Separation(media: string, stem: string, dereverb: bool): Call {
    Call(SeparatorSpace, SoundSeparate(SeparationRequest(FileArg(media), stem, false, dereverb)))
  }

  /** The four separations in order: the vocal and the background of the
      track, the vocal of the stored all-vocals stem, and the dereverbed vocal
      of the stored primary-vocal stem. */
  function SplitCalls(trackUrl: string, randomId: string, bucketName: string): (calls: seq<Call>)
    ensures |calls| == |StemFiles()|
  {
    [ Separation(trackUrl, "vocal", false),
      Separation(trackUrl, "background", false),
      Separation(PublicUrl(bucketName, StemPath(randomId, StemFiles()[0])), "vocal", false),
      Separation(PublicUrl(bucketName, StemPath(randomId, StemFiles()[2])), "vocal", true) ]
  }

  function SplitOutcomes(respond: Call -> Reply, calls: seq<Call>): seq<Outcome<string>> {
    seq(|calls|, k requires 0 <= k < |calls| => First(respond(calls[k])))
  }

  /** The uploads of the first n separations, all of which returned. */
  function StemUploads(randomId: string, outs: seq<Outcome<string>>, n: nat): (ups: seq<Upload>)
    requires n <= |outs| && n <= |StemFiles()| && forall k :: 0 <= k < n ==> outs[k].Ok?
    ensures |ups| == n
  {
    seq(n, k requires 0 <= k < n => Upload(StemPath(randomId, StemFiles()[k]), outs[k].value))
  }

  /** What split_for_juice returns and the state it leaves: the separations
      run in order up to the first that raises, each one that returns is
      stored as its stem, and the result is the (dereverbed vocal URL,
      background URL) pair or the first exception. */
  function SplitStage(respond: Call -> Reply, bucketName: string, trackUrl: string, randomId: string, w: World)
    : (Outcome<(string, string)>, World)
  {
    var calls := SplitCalls(trackUrl, randomId, bucketName);
    var outs := SplitOutcomes(respond, calls);
    var after := w.(calls := w.calls + calls[..Attempted(outs)],
                    uploads := w.uploads + StemUploads(randomId, outs, LeadingOk(outs)));
    if LeadingOk(outs) == |calls| then
      (Ok((PublicUrl(bucketName, StemPath(randomId, StemFiles()[3])),
           PublicUrl(bucketName, StemPath(randomId, StemFiles()[1])))), after)
    else (Raised(outs[LeadingOk(outs)].error), after)
  }

  /** One stanza of split_for_juice, separation i: the separation, then the
      upload of `result[0]` as stem i. The calls and uploads so far are those
      of separations 0 to i - 1. */
  method SeparateAndStore(i: nat, c: Call, randomId: string, gradio: Gradio, bucket: Bucket,
                          ghost calls: seq<Call>, ghost calls0: seq<Call>, ghost uploads0: seq<Upload>)
    returns (r: Outcome<string>)
    requires i < |calls| == |StemFiles()| && c == calls[i]
    requires forall k :: 0 <= k < i ==> SplitOutcomes(gradio.respond, calls)[k].Ok?
    requires gradio.calls == calls0 + calls[..i]
    requires bucket.uploads == uploads0 + StemUploads(randomId, SplitOutcomes(gradio.respond, calls), i)
    modifies gradio, bucket
    ensures gradio.calls == calls0 + calls[..i + 1]
    ensures var outs := SplitOutcomes(gradio.respond, calls);
      if outs[i].Ok? then
        r == Ok(PublicUrl(bucket.name, StemPath(randomId, StemFiles()[i]))) &&
        bucket.uploads == uploads0 + StemUploads(randomId, outs, i + 1)
      else
        r == outs[i] && bucket.uploads == old(bucket.uploads)
  {
    ghost var outs := SplitOutcomes(gradio.respond, calls);
    assert calls[..i + 1] == calls[..i] + [c];
    var result := gradio.Predict(c);
    var stem := First(result);
    if stem.Raised? {
      return Raised(stem.error);
    }
    assert StemUploads(randomId, outs, i + 1) ==
           StemUploads(randomId, outs, i) + [Upload(StemPath(randomId, StemFiles()[i]), stem.value)];
    var url := bucket.UploadFromFile(StemPath(randomId, StemFiles()[i]), stem.value);
    r := Ok(url);
  }

  /** split_for_juice. */
  method SplitForJuice(trackUrl: string, randomId: string, web: Web, gradio: Gradio, disk: Disk, bucket: Bucket)
    returns (r: Outcome<(string, string)>)
    modifies gradio, bucket
    ensures (r, World(gradio.calls, web.fetched, disk.files, bucket.uploads)) ==
            SplitStage(gradio.respond, bucket.name, trackUrl, randomId,
                       World(old(gradio.calls), web.fetched, disk.files, old(bucket.uploads)))
  {
    ghost var calls := SplitCalls(trackUrl, randomId, bucket.name);
    ghost var outs := SplitOutcomes(gradio.respond, calls);
    ghost var calls0, uploads0 := gradio.calls, bucket.uploads;
    assert calls[..0] == [] && StemUploads(randomId, outs, 0) == [];
    var allVoice := SeparateAndStore(0, Separation(trackUrl, "vocal", false), randomId, gradio, bucket, calls, calls0, uploads0);
    if allVoice.Raised? {
      StopsAt(outs, 0);
      return Raised(allVoice.error);
    }
    var background := SeparateAndStore(1, Separation(trackUrl, "background", false), randomId, gradio, bucket, calls, calls0, uploads0);
    if background.Raised? {
      StopsAt(outs, 1);
      return Raised(background.error);
    }
    var primary := SeparateAndStore(2, Separation(allVoice.value, "vocal", false), randomId, gradio, bucket, calls, calls0, uploads0);
    if primary.Raised? {
      StopsAt(outs, 2);
      return Raised(primary.error);
    }
    var deverbed := SeparateAndStore(3, Separation(primary.value, "vocal", true), randomId, gradio, bucket, calls, calls0, uploads0);
    if deverbed.Raised? {
      StopsAt(outs, 3);
      return Raised(deverbed.error);
    }
    LeadingOkIs(outs, 4);
    assert calls[..4] == calls;
    r := Ok((deverbed.value, background.value));
  }

  /* ---------------- combine_song_components ---------------- */

  /** The local file the mix is exported to: os.path.join(f"/tmp/combined/{vocal}/{background}", "combined.wav"). */
  function MixPath(vocalUrl: string, backgroundUrl: string): string {
    Join("/tmp/combined/" + vocalUrl + "/" + backgroundUrl, "combined.wav")
  }

  function RecombinedPath(randomId: string): string {
    "juice-newly-combined/" + randomId + "/recombined.wav"
  }

  /** What combine_song_components returns and the state it leaves: both
      stems are downloaded, an HTTP error status raising before any export or
      upload; otherwise the overlay of the background on the vocal is
      exported and uploaded under a fresh id. */
  function CombineStage(get: string -> HttpResponse, bucketName: string, decodeWav: string -> Audio,
                        overlay: (Audio, Audio) -> Audio, vocalUrl: string, backgroundUrl: string, randomId: string,
                        w: World): (Outcome<string>, World)
  {
    var vocal, background := get(vocalUrl), get(backgroundUrl);
    if IsHttpError(vocal) then (Raised(HttpError(vocal.status)), w.(fetched := w.fetched + [vocalUrl]))
    else if IsHttpError(background) then
      (Raised(HttpError(background.status)), w.(fetched := w.fetched + [vocalUrl, backgroundUrl]))
    else
      (Ok(PublicUrl(bucketName, RecombinedPath(randomId))),
       w.(fetched := w.fetched + [vocalUrl, backgroundUrl],
          files := w.files[MixPath(vocalUrl, backgroundUrl) := overlay(decodeWav(vocal.content), decodeWav(background.content))],
          uploads := w.uploads + [Upload(RecombinedPath(randomId), MixPath(vocalUrl, backgroundUrl))]))
  }

  /** combine_song_components. */
  method CombineSongComponents(vocalUrl: string, backgroundUrl: string, randomId: string,
                               decodeWav: string -> Audio, overlay: (Audio, Audio) -> Audio,
                               web: Web, gradio: Gradio, disk: Disk, bucket: Bucket) returns (r: Outcome<string>)
    modifies web, disk, bucket
    ensures (r, World(gradio.calls, web.fetched, disk.files, bucket.uploads)) ==
            CombineStage(web.respond, bucket.name, decodeWav, overlay, vocalUrl, backgroundUrl, randomId,
                         World(gradio.calls, old(web.fetched), old(disk.files), old(bucket.uploads)))
  {
    var vocal := web.Get(vocalUrl);
    if IsHttpError(vocal) {
      return Raised(HttpError(vocal.status));
    }
    var background := web.Get(backgroundUrl);
    assert web.fetched == old(web.fetched) + [vocalUrl, backgroundUrl];
    if IsHttpError(background) {
      return Raised(HttpError(background.status));
    }
    var combined := overlay(decodeWav(vocal.content), decodeWav(background.content));
    var combinedPath := MixPath(vocalUrl, backgroundUrl);
    disk.Export(combinedPath, combined);
    var url := bucket.UploadFromFile(RecombinedPath(randomId), combinedPath);
    r := Ok(url);
  }

  /* ---------------- POST /juice-vrse ---------------- */

  /** The services and audio library functions the route depends on. */
  datatype Oracles = Oracles(respond: Call -> Reply, get: string -> HttpResponse, bucketName: string,
                             decodeWav: string -> Audio, splitOnSilence: (Audio, int, int, bool) -> seq<Audio>,
                             detectPitch: Audio -> real, load: string -> Audio, overlay: (Audio, Audio) -> Audio)

  /** What the route answers and the state it leaves: the three stages in
      order, each starting from the state the previous one left, the first
      exception ending the request. */
  function JuiceVrseRun(o: Oracles, sunoLink: string, splitId: string, inferId: string, combineId: string,
                        w: World): (Outcome<Response>, World)
  {
    var (stems, w1) := SplitStage(o.respond, o.bucketName, sunoLink, splitId, w);
    if stems.Raised? then (Raised(stems.error), w1)
    else
      var (inferred, w2) := InferStage(o.respond, o.get, o.bucketName, o.decodeWav, o.splitOnSilence, o.detectPitch,
                                       o.load, ModelWeightsUrl, ModelIndexUrl, stems.value.0, inferId, w1);
      if inferred.Raised? then (Raised(inferred.error), w2)
      else
        var (mixed, w3) := CombineStage(o.get, o.bucketName, o.decodeWav, o.overlay, inferred.value, stems.value.1,
                                        combineId, w2);
        if mixed.Raised? then (Raised(mixed.error), w3)
        else (Ok(Response(200, JsonObject(map["inferredAudioUrl" := mixed.value]))), w3)
  }

  /** POST /juice-vrse. */
  method JuiceVrse(body: map<string, Json>, splitId: string, inferId: string, combineId: string,
                   decodeWav: string -> Audio, splitOnSilence: (Audio, int, int, bool) -> seq<Audio>,
                   detectPitch: Audio -> real, load: string -> Audio, overlay: (Audio, Audio) -> Audio,
                   web: Web, gradio: Gradio, disk: Disk, bucket: Bucket) returns (r: Outcome<Response>)
    requires bucket.name == JuiceBucket
    modifies web, gradio, disk, bucket
    ensures (r, World(gradio.calls, web.fetched, disk.files, bucket.uploads)) ==
            JuiceVrseRun(Oracles(gradio.respond, web.respond, bucket.name, decodeWav, splitOnSilence, detectPitch, load, overlay),
                         Str(Get(body, "sunoLink")), splitId, inferId, combineId,
                         World(old(gradio.calls), old(web.fetched), old(disk.files), old(bucket.uploads)))
  {
    var sunoLink := Str(Get(body, "sunoLink"));
    var stems := SplitForJuice(sunoLink, splitId, web, gradio, disk, bucket);
    if stems.Raised? {
      return Raised(stems.error);
    }
    var (vocalUrl, backgroundUrl) := stems.value;
    var inferred := InferAudioJuiceVrse(ModelWeightsUrl, ModelIndexUrl, vocalUrl, inferId,
                                        decodeWav, splitOnSilence, detectPitch, load, web, gradio, disk, bucket);
    if inferred.Raised? {
      return Raised(inferred.error);
    }
    var mixed := CombineSongComponents(inferred.value, backgroundUrl, combineId, decodeWav, overlay, web, gradio, disk, bucket);
    if mixed.Raised? {
      return Raised(mixed.error);
    }
    r := Ok(Response(200, JsonObject(map["inferredAudioUrl" := mixed.value])));
  }

  /** The three URLs the route downloads, in download order, and the blob and
      the local file of the mix. */
  function DeverbedUrl(o: Oracles, splitId: string): string {
    PublicUrl(o.bucketName, StemPath(splitId, StemFiles()[3]))
  }

  function BackgroundUrl(o: Oracles, splitId: string): string {
    PublicUrl(o.bucketName, StemPath(splitId, StemFiles()[1]))
  }

  function InferredUrl(o: Oracles, inferId: string): string {
    PublicUrl(o.bucketName, JuiceOutputPath(inferId))
  }

  /** The converted chunks of the dereverbed vocal. */
  function VocalOutcomes(o: Oracles, splitId: string): seq<Outcome<string>> {
    ChunkOutcomes(o.respond, o.detectPitch, ReferenceChunks(o.decodeWav, o.splitOnSilence, o.get(DeverbedUrl(o, splitId)).content),
                  ModelWeightsUrl, ModelIndexUrl)
  }

  /** The request succeeds exactly when all four separations return a first
      item, the dereverbed vocal downloads, every chunk conversion replies
      without error, and both the converted vocal and the background
      download. */
  lemma JuiceVrseSucceedsIff(o: Oracles, sunoLink: string, splitId: string, inferId: string, combineId: string, w: World)
    ensures JuiceVrseRun(o, sunoLink, splitId, inferId, combineId, w).0.Ok? <==>
      && LeadingOk(SplitOutcomes(o.respond, SplitCalls(sunoLink, splitId, o.bucketName))) == 4
      && !IsHttpError(o.get(DeverbedUrl(o, splitId)))
      && (forall k :: 0 <= k < |VocalOutcomes(o, splitId)| ==> VocalOutcomes(o, splitId)[k].Ok?)
      && !IsHttpError(o.get(InferredUrl(o, inferId)))
      && !IsHttpError(o.get(BackgroundUrl(o, splitId)))
  {
    CollectOk(VocalOutcomes(o, splitId));
  }

  /** A split_for_juice that returns made all four separations and stored
      the four stems, in order, and returns the dereverbed vocal and
      background URLs. */
  lemma SplitStageOk(respond: Call -> Reply, bucketName: string, trackUrl: string, randomId: string, w: World)
    requires SplitStage(respond, bucketName, trackUrl, randomId, w).0.Ok?
    ensures var (r, after) := SplitStage(respond, bucketName, trackUrl, randomId, w);
      && r.value == (PublicUrl(bucketName, StemPath(randomId, StemFiles()[3])),
                     PublicUrl(bucketName, StemPath(randomId, StemFiles()[1])))
      && after.calls == w.calls + SplitCalls(trackUrl, randomId, bucketName)
      && after.fetched == w.fetched && after.files == w.files
      && |after.uploads| == |w.uploads| + 4 && after.uploads[..|w.uploads|] == w.uploads
      && forall k :: 0 <= k < 4 ==> after.uploads[|w.uploads| + k].path == StemPath(randomId, StemFiles()[k])
  {
    var calls := SplitCalls(trackUrl, randomId, bucketName);
    var outs := SplitOutcomes(respond, calls);
    assert LeadingOk(outs) == 4 && Attempted(outs) == 4 && calls[..4] == calls;
    var stemUploads := StemUploads(randomId, outs, 4);
    var after := SplitStage(respond, bucketName, trackUrl, randomId, w).1;
    assert after.uploads == w.uploads + stemUploads;
    forall k | 0 <= k < 4
      ensures after.uploads[|w.uploads| + k].path == StemPath(randomId, StemFiles()[k])
    {
      assert after.uploads[|w.uploads| + k] == stemUploads[k];
    }
  }

  /** An infer_audio_juice_vrse that returns downloaded the reference,
      converted every chunk, and uploaded /tmp/combined.wav under the fresh id. */
  lemma InferStageOk(respond: Call -> Reply, get: string -> HttpResponse, bucketName: string,
                     decodeWav: string -> Audio, splitOnSilence: (Audio, int, int, bool) -> seq<Audio>,
                     detectPitch: Audio -> real, load: string -> Audio,
                     pth: string, idx: string, referenceUrl: string, randomId: string, w: World)
    requires InferStage(respond, get, bucketName, decodeWav, splitOnSilence, detectPitch, load,
                        pth, idx, referenceUrl, randomId, w).0.Ok?
    ensures var (r, after) := InferStage(respond, get, bucketName, decodeWav, splitOnSilence, detectPitch, load,
                                         pth, idx, referenceUrl, randomId, w);
      var chunks := ReferenceChunks(decodeWav, splitOnSilence, get(referenceUrl).content);
      && !IsHttpError(get(referenceUrl))
      && r.value == PublicUrl(bucketName, JuiceOutputPath(randomId))
      && after.calls == w.calls + ChunkCalls(detectPitch, chunks, pth, idx, |chunks|)
      && after.fetched == w.fetched + [referenceUrl]
      && after.uploads == w.uploads + [Upload(JuiceOutputPath(randomId), CombinedPath)]
  {
    var chunks := ReferenceChunks(decodeWav, splitOnSilence, get(referenceUrl).content);
    var outs := ChunkOutcomes(respond, detectPitch, chunks, pth, idx);
    CollectOk(outs);
    assert Attempted(outs) == |chunks|;
  }

  /** A combine_song_components that returns downloaded both stems, exported
      their overlay to the mix file and uploaded it under the fresh id. */
  lemma CombineStageOk(get: string -> HttpResponse, bucketName: string, decodeWav: string -> Audio,
                       overlay: (Audio, Audio) -> Audio, vocalUrl: string, backgroundUrl: string, randomId: string,
                       w: World)
    requires CombineStage(get, bucketName, decodeWav, overlay, vocalUrl, backgroundUrl, randomId, w).0.Ok?
    ensures var (r, after) := CombineStage(get, bucketName, decodeWav, overlay, vocalUrl, backgroundUrl, randomId, w);
      var mix := MixPath(vocalUrl, backgroundUrl);
      && r.value == PublicUrl(bucketName, RecombinedPath(randomId))
      && after.calls == w.calls
      && after.fetched == w.fetched + [vocalUrl, backgroundUrl]
      && mix in after.files && after.files[mix] == overlay(decodeWav(get(vocalUrl).content), decodeWav(get(backgroundUrl).content))
      && after.uploads == w.uploads + [Upload(RecombinedPath(randomId), mix)]
      && Latest(after.uploads, RecombinedPath(randomId)) == Some(mix)
  {
    var mix := MixPath(vocalUrl, backgroundUrl);
    LatestAfterUpload(w.uploads, Upload(RecombinedPath(randomId), mix), RecombinedPath(randomId));
  }

  /** A successful request answers 200 with the URL of the mix; it made the
      four separations and then one conversion per chunk of the dereverbed
      vocal; it downloaded the dereverbed vocal, the converted vocal and the
      background, in that order; it uploaded the four stems, the converted
      vocal and the mix, in that order, so the mix blob holds the mix file,
      which is the overlay of the downloaded background on the downloaded
      converted vocal. */
  lemma JuiceVrseSuccess(o: Oracles, sunoLink: string, splitId: string, inferId: string, combineId: string, w: World)
    requires JuiceVrseRun(o, sunoLink, splitId, inferId, combineId, w).0.Ok?
    ensures var (r, after) := JuiceVrseRun(o, sunoLink, splitId, inferId, combineId, w);
      var mix := MixPath(InferredUrl(o, inferId), BackgroundUrl(o, splitId));
      var chunks := ReferenceChunks(o.decodeWav, o.splitOnSilence, o.get(DeverbedUrl(o, splitId)).content);
      && r.value == Response(200, JsonObject(map["inferredAudioUrl" := PublicUrl(o.bucketName, RecombinedPath(combineId))]))
      && after.calls == w.calls + SplitCalls(sunoLink, splitId, o.bucketName) +
                        ChunkCalls(o.detectPitch, chunks, ModelWeightsUrl, ModelIndexUrl, |chunks|)
      && after.fetched == w.fetched + [DeverbedUrl(o, splitId), InferredUrl(o, inferId), BackgroundUrl(o, splitId)]
      && |after.uploads| == |w.uploads| + 6 && after.uploads[..|w.uploads|] == w.uploads
      && (forall k :: 0 <= k < 4 ==> after.uploads[|w.uploads| + k].path == StemPath(splitId, StemFiles()[k]))
      && after.uploads[|w.uploads| + 4] == Upload(JuiceOutputPath(inferId), CombinedPath)
      && after.uploads[|w.uploads| + 5] == Upload(RecombinedPath(combineId), mix)
      && Latest(after.uploads, RecombinedPath(combineId)) == Some(mix)
      && mix in after.files
      && after.files[mix] == o.overlay(o.decodeWav(o.get(InferredUrl(o, inferId)).content),
                                       o.decodeWav(o.get(BackgroundUrl(o, splitId)).content))
  {
    JuiceVrseRunStages(o, sunoLink, splitId, inferId, combineId, w);
    var (stems, w1) := SplitStage(o.respond, o.bucketName, sunoLink, splitId, w);
    SplitStageOk(o.respond, o.bucketName, sunoLink, splitId, w);
    var (inferred, w2) := InferStage(o.respond, o.get, o.bucketName, o.decodeWav, o.splitOnSilence, o.detectPitch,
                                     o.load, ModelWeightsUrl, ModelIndexUrl, stems.value.0, inferId, w1);
    InferStageOk(o.respond, o.get, o.bucketName, o.decodeWav, o.splitOnSilence, o.detectPitch,
                 o.load, ModelWeightsUrl, ModelIndexUrl, stems.value.0, inferId, w1);
    var (mixed, w3) := CombineStage(o.get, o.bucketName, o.decodeWav, o.overlay, inferred.value, stems.value.1, combineId, w2);
    CombineStageOk(o.get, o.bucketName, o.decodeWav, o.overlay, inferred.value, stems.value.1, combineId, w2);
    assert w3.fetched == w.fetched + [DeverbedUrl(o, splitId), InferredUrl(o, inferId), BackgroundUrl(o, splitId)];
    assert w3.uploads == w1.uploads + [Upload(JuiceOutputPath(inferId), CombinedPath)] +
                         [Upload(RecombinedPath(combineId), MixPath(InferredUrl(o, inferId), BackgroundUrl(o, splitId)))];
  }

  /** A request that succeeds went through all three stages. */
  lemma JuiceVrseRunStages(o: Oracles, sunoLink: string, splitId: string, inferId: string, combineId: string, w: World)
    requires JuiceVrseRun(o, sunoLink, splitId, inferId, combineId, w).0.Ok?
    ensures var (stems, w1) := SplitStage(o.respond, o.bucketName, sunoLink, splitId, w);
      && stems.Ok?
      && var (inferred, w2) := InferStage(o.respond, o.get, o.bucketName, o.decodeWav, o.splitOnSilence, o.detectPitch,
                                          o.load, ModelWeightsUrl, ModelIndexUrl, stems.value.0, inferId, w1);
         && inferred.Ok?
         && var (mixed, w3) := CombineStage(o.get, o.bucketName, o.decodeWav, o.overlay, inferred.value, stems.value.1,
                                            combineId, w2);
            && mixed.Ok?
            && JuiceVrseRun(o, sunoLink, splitId, inferId, combineId, w) ==
               (Ok(Response(200, JsonObject(map["inferredAudioUrl" := mixed.value]))), w3)
  {
  }

  /** A failed separation ends the request before any download, local file
      or conversion: only separations were called. */
  lemma JuiceVrseSplitFailure(o: Oracles, sunoLink: string, splitId: string, inferId: string, combineId: string, w: World)
    requires SplitStage(o.respond, o.bucketName, sunoLink, splitId, w).0.Raised?
    ensures var (r, after) := JuiceVrseRun(o, sunoLink, splitId, inferId, combineId, w);
      var calls := SplitCalls(sunoLink, splitId, o.bucketName);
      && r == Raised(SplitStage(o.respond, o.bucketName, sunoLink, splitId, w).0.error)
      && after.fetched == w.fetched && after.files == w.files
      && exists n :: 1 <= n < |calls| + 1 && after.calls == w.calls + calls[..n]
  {
    var calls := SplitCalls(sunoLink, splitId, o.bucketName);
    var outs := SplitOutcomes(o.respond, calls);
    var n := Attempted(outs);
    assert 1 <= n < |calls| + 1;
  }

  /** The mix blob's path is never one of the other blobs the route writes. */
  lemma MixBlobApart(splitId: string, inferId: string, combineId: string, file: string)
    ensures StemPath(splitId, file) != RecombinedPath(combineId)
    ensures JuiceOutputPath(inferId) != RecombinedPath(combineId)
  {
    assert StemPath(splitId, file)[6] == 's';
    assert JuiceOutputPath(inferId)[6] == 'i';
    assert RecombinedPath(combineId)[6] == 'n';
  }

  /** `after` is `before` followed by uploads, none of them to `path`. */
  predicate UploadsElsewhere(before: seq<Upload>, after: seq<Upload>, path: string) {
    && |before| <= |after| && after[..|before|] == before
    && forall k :: |before| <= k < |after| ==> after[k].path != path
  }

  lemma UploadsElsewhereTransitive(a: seq<Upload>, b: seq<Upload>, c: seq<Upload>, path: string)
    requires UploadsElsewhere(a, b, path) && UploadsElsewhere(b, c, path)
    ensures UploadsElsewhere(a, c, path)
  {
    assert c[..|a|] == c[..|b|][..|a|];
  }

  /** Uploads elsewhere leave the blob at `path` as it was. */
  lemma UploadsElsewhereKeepBlob(before: seq<Upload>, after: seq<Upload>, path: string)
    requires UploadsElsewhere(before, after, path)
    ensures Latest(after, path) == Latest(before, path)
  {
    var later := after[|before|..];
    assert after == before + later;
    assert forall k :: 0 <= k < |later| ==> later[k] == after[|before| + k];
    LatestUnaffected(before, later, path);
  }

  /** split_for_juice stores only stems. */
  lemma SplitStageSparesMix(respond: Call -> Reply, bucketName: string, trackUrl: string, splitId: string,
                            combineId: string, w: World)
    ensures UploadsElsewhere(w.uploads, SplitStage(respond, bucketName, trackUrl, splitId, w).1.uploads,
                             RecombinedPath(combineId))
  {
    var outs := SplitOutcomes(respond, SplitCalls(trackUrl, splitId, bucketName));
    var stemUploads := StemUploads(splitId, outs, LeadingOk(outs));
    var after := SplitStage(respond, bucketName, trackUrl, splitId, w).1.uploads;
    assert after == w.uploads + stemUploads;
    forall k | |w.uploads| <= k < |after|
      ensures after[k].path != RecombinedPath(combineId)
    {
      assert after[k] == stemUploads[k - |w.uploads|];
      MixBlobApart(splitId, "", combineId, StemFiles()[k - |w.uploads|]);
    }
  }

  /** infer_audio_juice_vrse stores only the converted vocal. */
  lemma InferStageSparesMix(respond: Call -> Reply, get: string -> HttpResponse, bucketName: string,
                            decodeWav: string -> Audio, splitOnSilence: (Audio, int, int, bool) -> seq<Audio>,
                            detectPitch: Audio -> real, load: string -> Audio,
                            pth: string, idx: string, referenceUrl: string, inferId: string, combineId: string, w: World)
    ensures UploadsElsewhere(w.uploads, InferStage(respond, get, bucketName, decodeWav, splitOnSilence, detectPitch, load,
                                                   pth, idx, referenceUrl, inferId, w).1.uploads,
                             RecombinedPath(combineId))
  {
    MixBlobApart("", inferId, combineId, "");
  }

  /** A request that raises leaves the mix blob as it was: it only appended
      uploads, and none of them went there. */
  lemma JuiceVrseFailureStoresNoMix(o: Oracles, sunoLink: string, splitId: string, inferId: string, combineId: string,
                                    w: World)
    requires JuiceVrseRun(o, sunoLink, splitId, inferId, combineId, w).0.Raised?
    ensures UploadsElsewhere(w.uploads, JuiceVrseRun(o, sunoLink, splitId, inferId, combineId, w).1.uploads,
                             RecombinedPath(combineId))
    ensures Latest(JuiceVrseRun(o, sunoLink, splitId, inferId, combineId, w).1.uploads, RecombinedPath(combineId)) ==
            Latest(w.uploads, RecombinedPath(combineId))
  {
    var path := RecombinedPath(combineId);
    var after := JuiceVrseRun(o, sunoLink, splitId, inferId, combineId, w).1;
    var (stems, w1) := SplitStage(o.respond, o.bucketName, sunoLink, splitId, w);
    SplitStageSparesMix(o.respond, o.bucketName, sunoLink, splitId, combineId, w);
    if stems.Ok? {
      var (inferred, w2) := InferStage(o.respond, o.get, o.bucketName, o.decodeWav, o.splitOnSilence, o.detectPitch,
                                       o.load, ModelWeightsUrl, ModelIndexUrl, stems.value.0, inferId, w1);
      InferStageSparesMix(o.respond, o.get, o.bucketName, o.decodeWav, o.splitOnSilence, o.detectPitch,
                          o.load, ModelWeightsUrl, ModelIndexUrl, stems.value.0, inferId, combineId, w1);
      UploadsElsewhereTransitive(w.uploads, w1.uploads, w2.uploads, path);
      assert after.uploads == w2.uploads;
    }
    UploadsElsewhereKeepBlob(w.uploads, after.uploads, path);
  }
}
